/**
 * The profile page of app/dashboard/profile/page.tsx: the form filled from
 * the signed-in user, the update it sends, and the avatar's initials.
 */
module ProfilePage {
  import opened Common
  import opened Strings
  import opened Json
  import AuthProvider

  datatype ProfileForm = ProfileForm(
    name: string, email: string, preferred_role: string, location: string, bio: string, skills: string)

  /** `user.k || ""`, as the input shows it. */
  function FieldOrEmpty(user: AuthProvider.User, k: string): (s: string)
    ensures k !in user || !Truthy(user[k]) ==> s == ""
    ensures k in user && user[k].JStr? && user[k].s != "" ==> s == user[k].s
  {
    if k in user && Truthy(user[k]) then Show(user[k]) else ""
  }

  /** The form as filled from the user, with `""` for every missing or empty field. */
  function FormFrom(user: AuthProvider.User): (f: ProfileForm)
    ensures f.name == FieldOrEmpty(user, "name") && f.email == FieldOrEmpty(user, "email")
    ensures f.preferred_role == FieldOrEmpty(user, "preferred_role") && f.location == FieldOrEmpty(user, "location")
    ensures f.bio == FieldOrEmpty(user, "bio") && f.skills == FieldOrEmpty(user, "skills")
  {
    ProfileForm(FieldOrEmpty(user, "name"), FieldOrEmpty(user, "email"), FieldOrEmpty(user, "preferred_role"),
                FieldOrEmpty(user, "location"), FieldOrEmpty(user, "bio"), FieldOrEmpty(user, "skills"))
  }

  /** What `handleSubmit` passes to `updateProfile`: every field but the email. */
  function UpdatePayload(f: ProfileForm): (data: map<string, Json>)
    ensures data.Keys == {"name", "preferred_role", "location", "bio", "skills"}
    ensures data["name"] == JStr(f.name) && data["preferred_role"] == JStr(f.preferred_role)
    ensures data["location"] == JStr(f.location) && data["bio"] == JStr(f.bio) && data["skills"] == JStr(f.skills)
  {
    map["name" := JStr(f.name), "preferred_role" := JStr(f.preferred_role), "location" := JStr(f.location),
        "bio" := JStr(f.bio), "skills" := JStr(f.skills)]
  }

  /** Saving the profile never touches the user's email or id, whatever the form holds. */
  lemma SaveKeepsEmailAndId(user: AuthProvider.User, f: ProfileForm, k: string)
    requires k == "email" || k == "id"
    ensures k in user + UpdatePayload(f) <==> k in user
    ensures k in user ==> (user + UpdatePayload(f))[k] == user[k]
  {
  }

  /** Saving the form just loaded writes back what the user already had in each saved string field. */
  lemma SaveUnchangedForm(user: AuthProvider.User, k: string)
    requires k in {"name", "preferred_role", "location", "bio", "skills"}
    requires k in user && user[k].JStr? && user[k].s != ""
    ensures (user + UpdatePayload(FormFrom(user)))[k] == user[k]
  {
  }

  /** `n[0]` for each piece: nothing for an empty one. */
  function Firsts(pieces: seq<string>): (r: string)
    ensures |r| <= |pieces|
  {
    if |pieces| == 0 then ""
    else (if pieces[0] == "" then "" else [pieces[0][0]]) + Firsts(pieces[1..])
  }

  lemma {:induction false} FirstsConcat(a: seq<string>, b: seq<string>)
    ensures Firsts(a + b) == Firsts(a) + Firsts(b)
    decreases |a|
  {
    if |a| > 0 {
      FirstsConcat(a[1..], b);
      assert (a + b)[1..] == a[1..] + b;
    } else {
      assert a + b == b;
    }
  }

  /** `getInitials`: the first character of each space-separated piece, upper-cased. */
  function GetInitials(name: string): string
  {
    Upper(Firsts(Split(name, ' ')))
  }

  /** For words without spaces, joined by single spaces, the initials are their first letters. */
  lemma {:induction false} InitialsOfWords(words: seq<string>)
    requires |words| > 0 && forall i :: 0 <= i < |words| ==> words[i] != "" && ' ' !in words[i]
    ensures |GetInitials(Join(words, " "))| == |words|
    ensures forall i :: 0 <= i < |words| ==> GetInitials(Join(words, " "))[i] == UpperChar(words[i][0])
  {
    SplitJoin(words, ' ');
    assert Split(Join(words, " "), ' ') == words;
    FirstsOfWords(words);
  }

  lemma {:induction false} FirstsOfWords(words: seq<string>)
    requires forall i :: 0 <= i < |words| ==> words[i] != ""
    ensures |Firsts(words)| == |words|
    ensures forall i :: 0 <= i < |words| ==> Firsts(words)[i] == words[i][0]
    decreases |words|
  {
    if |words| > 0 {
      FirstsOfWords(words[1..]);
    }
  }

  /** A repeated space adds an empty piece, which contributes nothing. */
  lemma DoubleSpaceAddsNothing(a: string, b: string)
    ensures GetInitials(a + "  " + b) == GetInitials(a + " " + b)
  {
    assert a + "  " + b == a + [' '] + ("" + [' '] + b);
    SplitConcat(a, "" + [' '] + b, ' ');
    SplitConcat("", b, ' ');
    assert a + " " + b == a + [' '] + b;
    SplitConcat(a, b, ' ');
    FirstsConcat(Split(a, ' '), [""] + Split(b, ' '));
    FirstsConcat([""], Split(b, ' '));
    FirstsConcat(Split(a, ' '), Split(b, ' '));
  }

  /** The avatar's text: "U" for an empty name, the initials otherwise. */
  function AvatarText(name: string): (text: string)
    ensures name == "" ==> text == "U"
    ensures name != "" ==> text == GetInitials(name)
  {
    if name == "" then "U" else GetInitials(name)
  }

  /** A name of spaces only is not empty, so it shows no initials at all rather than "U". */
  lemma BlankNameShowsNothing(n: nat)
    requires n > 0
    ensures AvatarText(seq(n, i => ' ')) == ""
  {
    var name := seq(n, i => ' ');
    BlankPieces(name);
  }

  lemma {:induction false} BlankPieces(name: string)
    requires forall i :: 0 <= i < |name| ==> name[i] == ' '
    ensures Firsts(Split(name, ' ')) == ""
    decreases |name|
  {
    if |name| > 0 {
      BlankPieces(name[1..]);
    }
  }
}
