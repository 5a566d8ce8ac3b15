/** The configuration consumed by the delivery layer (src/config/whatsapp.js):
    the list parsers for ADMIN_NUMBERS and ALLOWED_GROUPS, and the
    configuration record with the defaults the source falls back to. */
module WhatsAppConfig {
  import opened Wrappers
  import opened JsString
  import opened Seqs

  /** The parts of `getFullConfig()` that the delivery layer reads. */
  datatype Config = Config(
    // messageHandler
    maxMessageLength: nat, typingDelay: nat, messageDelay: nat, maxRetries: nat, retryDelay: nat,
    // media
    maxFileSize: nat, supportedFormats: seq<string>,
    // security
    adminNumbers: seq<string>, allowedGroups: seq<string>,
    rateLimitPerUser: nat, rateLimitWindow: nat,
    // bot.features
    sendTyping: bool, rateLimiting: bool,
    // top-level fields of the WhatsAppConfig object
    qrCodeRetries: nat, restartDelay: nat)

  /** The values the source uses when no environment variable overrides them. */
  function DefaultConfig(): Config {
    Config(
      4000, 1000, 500, 3, 2000,
      5242880, ["jpg", "jpeg", "png", "webp"],
      [], [],
      10, 3600000,
      true, true,
      3, 5000)
  }

  /** `config.client`, reduced to the two settings the service reads from
      it. `getClientConfig()` builds the session strategy, the browser
      options and the web version cache, and neither of these two: both
      read as `undefined` (`None`). */
  datatype ClientConfig = ClientConfig(qrCodeRetries: Option<nat>, restartDelay: Option<nat>)

  function GetClientConfig(): ClientConfig {
    ClientConfig(None, None)
  }

  /** `n > limit` in JavaScript: false against `undefined`. */
  predicate Exceeds(n: int, limit: Option<nat>) {
    limit.Some? && n > limit.value
  }

  /** `x * n` in JavaScript: `undefined * n` is not a number (`None`). */
  function Times(x: Option<nat>, n: int): Option<int> {
    if x.Some? then Some(x.value * n) else None
  }

  function TrimAll(parts: seq<string>): (r: seq<string>)
    ensures |r| == |parts|
    ensures forall i :: 0 <= i < |parts| ==> r[i] == Trim(parts[i])
  {
    seq(|parts|, i requires 0 <= i < |parts| => Trim(parts[i]))
  }

  predicate NonEmpty(p: string) {
    |p| > 0
  }

  /** `parseGroupIds(groupStr)`: split on commas, trim, drop empty pieces;
      a missing or empty input gives the empty list. */
  function ParseGroupIds(groupStr: Option<string>): (ids: seq<string>)
    ensures groupStr.None? || groupStr.value == "" ==> ids == []
    ensures groupStr.Some? ==> |ids| <= |Split(groupStr.value, ',')|
  {
    if groupStr.None? || groupStr.value == "" then []
    else Filter(TrimAll(Split(groupStr.value, ',')), NonEmpty)
  }

  /** No id is empty and no id carries white space at either end. */
  lemma GroupIdsTrimmed(groupStr: Option<string>, i: nat)
    requires i < |ParseGroupIds(groupStr)|
    ensures ParseGroupIds(groupStr)[i] != ""
    ensures Trim(ParseGroupIds(groupStr)[i]) == ParseGroupIds(groupStr)[i]
  {
    var parts := Split(groupStr.value, ',');
    var trimmed := TrimAll(parts);
    assert ParseGroupIds(groupStr) == Filter(trimmed, NonEmpty);
    var j := FilterElement(trimmed, NonEmpty, i);
    var id := trimmed[j];
    assert id == Trim(parts[j]) && |id| > 0;
    TrimIdempotent(parts[j]);
    assert Trim(id) == id;
  }

  /** The country-code rule applied to each phone number. */
  function NormalizePhone(num: string): string {
    if !StartsWith(num, "+") && !StartsWith(num, "62") then "62" + num
    else RemoveFirst(num, '+')
  }

  /** `parsePhoneNumbers(phoneStr)`: the same split/trim/filter pipeline as
      `parseGroupIds`, then the country-code rule on every entry. */
  function ParsePhoneNumbers(phoneStr: Option<string>): (nums: seq<string>)
    ensures phoneStr.None? || phoneStr.value == "" ==> nums == []
    ensures |nums| == |ParseGroupIds(phoneStr)|
    ensures forall i :: 0 <= i < |nums| ==> nums[i] == NormalizePhone(ParseGroupIds(phoneStr)[i])
  {
    var ids := ParseGroupIds(phoneStr);
    seq(|ids|, i requires 0 <= i < |ids| => NormalizePhone(ids[i]))
  }

  /** A number without "+" or "62" in front gets "62" in front. */
  lemma LocalNumberGetsCountryCode(num: string)
    requires num != [] && num[0] != '+' && !StartsWith(num, "62")
    ensures NormalizePhone(num) == "62" + num
  {
  }

  /** "+62..." becomes "62...": the leading "+" is the one removed. */
  lemma InternationalPlusDropped(rest: string)
    ensures NormalizePhone("+62" + rest) == "62" + rest
  {
    var num := "+62" + rest;
    assert num[..1] == "+" && num[1..] == "62" + rest;
  }

  /** A number starting with "62" keeps its start; only a later "+" goes. */
  lemma CountryCodeKept(rest: string)
    ensures NormalizePhone("62" + rest) == "62" + RemoveFirst(rest, '+')
  {
    var num := "62" + rest;
    assert NormalizePhone(num) == RemoveFirst(num, '+') by {
      assert num[..1][0] == '6';
      assert num[..2] == "62";
    }
    RemoveFirstAfter("62", rest, '+');
  }

  /** `RemoveFirst` passes over a prefix that does not hold `c`. */
  lemma {:induction false} RemoveFirstAfter(prefix: string, rest: string, c: char)
    requires c !in prefix
    ensures RemoveFirst(prefix + rest, c) == prefix + RemoveFirst(rest, c)
    decreases |prefix|
  {
    if prefix == [] {
      assert prefix + rest == rest;
    } else {
      RemoveFirstAfter(prefix[1..], rest, c);
      var s := prefix + rest;
      assert s[0] == prefix[0] != c;
      assert s[1..] == prefix[1..] + rest;
      assert RemoveFirst(s, c) == [prefix[0]] + (prefix[1..] + RemoveFirst(rest, c));
      assert [prefix[0]] + (prefix[1..] + RemoveFirst(rest, c)) == ([prefix[0]] + prefix[1..]) + RemoveFirst(rest, c);
      assert [prefix[0]] + prefix[1..] == prefix;
    }
  }

  lemma TrimAllAppend(a: seq<string>, b: seq<string>)
    ensures TrimAll(a + b) == TrimAll(a) + TrimAll(b)
  {
  }

  /** Entries are produced in input order: the ids of `a,b` are the ids of
      `a` followed by the ids of `b`. */
  lemma {:induction false} GroupIdsInOrder(a: string, b: string)
    ensures ParseGroupIds(Some(a + "," + b)) == ParseGroupIds(Some(a)) + ParseGroupIds(Some(b))
  {
    var s := a + "," + b;
    assert s == a + [','] + b;
    var pa, pb := Split(a, ','), Split(b, ',');
    SplitAppend(a, b, ',');
    TrimAllAppend(pa, pb);
    FilterAppend(TrimAll(pa), TrimAll(pb), NonEmpty);
    PipelineUnfold(s);
    PipelineUnfold(a);
    PipelineUnfold(b);
  }

  /** The empty string goes through the pipeline to nothing as well. */
  lemma PipelineUnfold(s: string)
    ensures ParseGroupIds(Some(s)) == Filter(TrimAll(Split(s, ',')), NonEmpty)
  {
    if s == "" {
      assert Split("", ',') == [""];
      assert TrimAll([""]) == [""];
    }
  }

  /** Some comma-separated segment of `s` trims to the non-empty `id`. */
  predicate SegmentYields(s: string, id: string) {
    id != "" && exists k :: 0 <= k < |Split(s, ',')| && Trim(Split(s, ',')[k]) == id
  }

  /** Every id is the trimmed form of some comma-separated segment, and
      every segment that is not blank after trimming yields an id. */
  lemma {:induction false} GroupIdMembership(s: string, id: string)
    requires s != ""
    ensures id in ParseGroupIds(Some(s)) <==> SegmentYields(s, id)
  {
    var parts := Split(s, ',');
    var trimmed := TrimAll(parts);
    var ids := ParseGroupIds(Some(s));
    assert ids == Filter(trimmed, NonEmpty);
    if id in ids {
      var i :| 0 <= i < |ids| && ids[i] == id;
      var k := FilterElement(trimmed, NonEmpty, i);
      assert Trim(parts[k]) == id && id != "";
      assert SegmentYields(s, id);
    }
    if SegmentYields(s, id) {
      var k :| 0 <= k < |parts| && Trim(parts[k]) == id;
      assert trimmed[k] == id && NonEmpty(id);
      FilterKeeps(trimmed, NonEmpty, k);
      assert id in ids;
    }
  }
}
