/** The environment-driven predicates of src/utils/helpers.js. The
    environment variable is passed in as an optional string. */
module Helpers {
  import opened Wrappers
  import opened JsString

  /** `!process.env.X`: the variable is unset or empty. */
  predicate Unset(env: Option<string>) {
    env.None? || env.value == ""
  }

  /** `isAuthorizedUser(phoneNumber)`, with ADMIN_NUMBERS as `adminNumbers`. */
  function IsAuthorizedUser(phoneNumber: string, adminNumbers: Option<string>): (ok: bool)
    ensures Unset(adminNumbers) ==> ok
    ensures !Unset(adminNumbers) ==> (ok <==> phoneNumber in Split(adminNumbers.value, ','))
  {
    Unset(adminNumbers) || phoneNumber in Split(adminNumbers.value, ',')
  }

  /** `isAuthorizedGroup(groupId)`, with ALLOWED_GROUPS as `allowedGroups`. */
  function IsAuthorizedGroup(groupId: string, allowedGroups: Option<string>): (ok: bool)
    ensures Unset(allowedGroups) ==> ok
    ensures !Unset(allowedGroups) ==> (ok <==> groupId in Split(allowedGroups.value, ','))
  {
    Unset(allowedGroups) || groupId in Split(allowedGroups.value, ',')
  }

  /** Every entry of a comma-separated list authorizes exactly itself. */
  lemma ListedEntryAuthorized(entries: seq<string>, k: nat)
    requires k < |entries|
    requires forall i :: 0 <= i < |entries| ==> ',' !in entries[i]
    requires Join(entries, ',') != ""
    ensures IsAuthorizedUser(entries[k], Some(Join(entries, ',')))
    ensures IsAuthorizedGroup(entries[k], Some(Join(entries, ',')))
  {
    SplitJoin(entries, ',');
  }

  /** Entries are compared untrimmed: a space after the comma makes the
      second number unreachable. */
  lemma EntriesNotTrimmed()
    ensures !IsAuthorizedUser("628", Some("627, 628"))
  {
    assert Join(["627", " 628"], ',') == "627, 628";
    SplitJoin(["627", " 628"], ',');
    assert "628" != "627" && |"628"| != |" 628"|;
  }

  /** The list behind `isValidImageFormat`: SUPPORTED_FORMATS, or
      "jpg,jpeg,png,webp" when unset or empty. */
  function SupportedFormats(formatsEnv: Option<string>): seq<string> {
    Split(if Unset(formatsEnv) then "jpg,jpeg,png,webp" else formatsEnv.value, ',')
  }

  /** `mimetype.split("/")[1]` is one of the supported formats; a missing
      second field (`undefined`) is never in the list. */
  function IsValidImageFormat(mimetype: string, formatsEnv: Option<string>): (ok: bool)
    ensures ok <==> |Split(mimetype, '/')| >= 2 && Split(mimetype, '/')[1] in SupportedFormats(formatsEnv)
  {
    var fields := Split(mimetype, '/');
    |fields| >= 2 && fields[1] in SupportedFormats(formatsEnv)
  }

  /** A mimetype without "/" is always rejected. */
  lemma NoSlashRejected(mimetype: string, formatsEnv: Option<string>)
    requires '/' !in mimetype
    ensures !IsValidImageFormat(mimetype, formatsEnv)
  {
    SplitNoSeparator(mimetype, '/');
  }

  /** The default list is jpg, jpeg, png, webp. */
  lemma DefaultFormats()
    ensures SupportedFormats(None) == ["jpg", "jpeg", "png", "webp"]
  {
    var list := ["jpg", "jpeg", "png", "webp"];
    assert Join(list, ',') == "jpg,jpeg,png,webp";
    SplitJoin(list, ',');
  }

  /** The subtype of a `type/subtype` mimetype decides, for instance
      "image/png" under the default list. */
  lemma SubtypeDecides(kind: string, subtype: string, formatsEnv: Option<string>)
    requires '/' !in kind && '/' !in subtype
    ensures IsValidImageFormat(kind + "/" + subtype, formatsEnv) <==> subtype in SupportedFormats(formatsEnv)
  {
    var m := kind + "/" + subtype;
    assert Join([kind, subtype], '/') == m;
    SplitJoin([kind, subtype], '/');
  }
}
