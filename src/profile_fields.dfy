/**
 * The profile fields a model-generated update may set, as both profile
 * actions sanitise them (app/actions/profile-import-actions.ts and
 * app/actions/ai-profile-actions.ts), and the reading of the model's text as
 * JSON.
 */
module ProfileFields {
  import opened Common
  import opened Strings
  import opened Json

  const PROFILE_FIELDS := ["name", "preferred_role", "location", "bio", "skills"]
  const BIO_LIMIT := 500

  /** `content?.trim() || "{}"`: the text handed to `JSON.parse`. */
  function ParseInput(content: Option<string>): (text: string)
    ensures text != ""
    ensures content.None? || Trim(content.value) == "" ==> text == "{}"
  {
    if content.Some? && Trim(content.value) != "" then Trim(content.value) else "{}"
  }

  /** `if (parsed.k) validFields.k = parsed.k` */
  function Keep(fields: map<string, Json>, parsed: Json, k: string): (r: map<string, Json>)
    ensures forall j :: j in r <==> j in fields || (j == k && Present(Field(parsed, k)))
    ensures forall j :: j in r ==> r[j] == if j == k && Present(Field(parsed, k)) then Field(parsed, k).value else fields[j]
  {
    if Present(Field(parsed, k)) then fields[k := Field(parsed, k).value] else fields
  }

  /**
   * `validFields`: the truthy fields among the five, with the bio cut to 500
   * characters. `None` when the code throws instead: reading a field of
   * `null`, or calling `substring` on a bio that is not a string.
   */
  function ValidFields(parsed: Json): (r: Option<map<string, Json>>)
    ensures r.None? <==> parsed == JNull || (Present(Field(parsed, "bio")) && !Field(parsed, "bio").value.JStr?)
    ensures r.Some? ==> forall k :: k in r.value <==> k in PROFILE_FIELDS && Present(Field(parsed, k))
    ensures r.Some? ==> forall k :: k in r.value && k != "bio" ==> Field(parsed, k) == Some(r.value[k])
    ensures r.Some? && "bio" in r.value ==>
      r.value["bio"] == JStr(Take(Field(parsed, "bio").value.s, BIO_LIMIT)) && |r.value["bio"].s| <= BIO_LIMIT
  {
    if parsed == JNull then None
    else
      var bio := Field(parsed, "bio");
      if Present(bio) && !bio.value.JStr? then None
      else
        var withName := Keep(map[], parsed, "name");
        var withRole := Keep(withName, parsed, "preferred_role");
        var withLocation := Keep(withRole, parsed, "location");
        var withBio := if Present(bio) then withLocation["bio" := JStr(Take(bio.value.s, BIO_LIMIT))] else withLocation;
        assert forall k :: k in PROFILE_FIELDS <==> k in {"name", "preferred_role", "location", "bio", "skills"};
        Some(Keep(withBio, parsed, "skills"))
  }

  /** Every field kept is truthy, the bio included. */
  lemma KeptFieldsTruthy(parsed: Json)
    requires ValidFields(parsed).Some?
    ensures forall k :: k in ValidFields(parsed).value ==> Truthy(ValidFields(parsed).value[k])
  {
    var f := ValidFields(parsed).value;
    forall k | k in f ensures Truthy(f[k]) {
      if k == "bio" {
        var s := Field(parsed, "bio").value.s;
        assert s != [] && Take(s, BIO_LIMIT)[0] == s[0];
      }
    }
  }

  /** Sanitising what it produced changes nothing: a second pass keeps every field as it is. */
  lemma ValidFieldsIdempotent(parsed: Json)
    requires ValidFields(parsed).Some?
    ensures ValidFields(JObj(ValidFields(parsed).value)) == ValidFields(parsed)
  {
    var f := ValidFields(parsed).value;
    KeptFieldsTruthy(parsed);
    SecondPass(f);
  }

  lemma SecondPass(f: map<string, Json>)
    requires forall k :: k in f ==> k in PROFILE_FIELDS && Truthy(f[k])
    requires "bio" in f ==> f["bio"].JStr? && |f["bio"].s| <= BIO_LIMIT
    ensures ValidFields(JObj(f)) == Some(f)
  {
    var g := ValidFields(JObj(f)).value;
    forall k ensures k in g <==> k in f {
      if k in f {
        assert Field(JObj(f), k) == Some(f[k]);
      }
    }
    forall k | k in g ensures g[k] == f[k] {
      if k == "bio" {
        assert Take(f["bio"].s, BIO_LIMIT) == f["bio"].s;
      }
    }
    assert g == f;
  }

  /** The keys of `keys` that `fields` holds, in the order of `keys`: what `Object.keys` lists. */
  function Changed(keys: seq<string>, fields: map<string, Json>): (r: seq<string>)
    ensures forall k :: k in r <==> k in keys && k in fields
    ensures |r| <= |keys|
  {
    if keys == [] then []
    else if keys[0] in fields then [keys[0]] + Changed(keys[1..], fields)
    else Changed(keys[1..], fields)
  }

  lemma {:induction false} ChangedInOrder(keys: seq<string>, fields: map<string, Json>)
    ensures SubsequenceOf(Changed(keys, fields), keys)
    decreases |keys|
  {
    if keys != [] {
      ChangedInOrder(keys[1..], fields);
      var rest := Changed(keys[1..], fields);
      if keys[0] !in fields && rest != [] {
        assert rest[0] in keys[1..];
      }
    }
  }

  /** The changed-fields message names each field that was set, once, in the order name, role, location, bio, skills. */
  lemma ChangedFieldsListed(fields: map<string, Json>)
    ensures var r := Changed(PROFILE_FIELDS, fields);
      SubsequenceOf(r, PROFILE_FIELDS) && (forall k :: k in r <==> k in PROFILE_FIELDS && k in fields)
  {
    ChangedInOrder(PROFILE_FIELDS, fields);
  }
}
