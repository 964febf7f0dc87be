/**
 * The cookie-based customer identity (src/services/customerService.ts):
 * read `customerUUID` out of `document.cookie`, or generate an id and write
 * it back with a one-year lifetime. The fresh uuid and the page's protocol
 * are parameters.
 */
module CustomerService {
  import opened Types
  import opened Text
  import opened Lists

  const CookieName := "customerUUID"
  const SegmentSeparator := "; "
  /** One year in seconds: 365 * 24 * 60 * 60. */
  const MaxAgeAttribute := "max-age=31536000"

  /** The position of the first segment starting with `prefix`, or -1. */
  function FirstStartingWith(segments: seq<string>, prefix: string): (k: int)
    ensures -1 <= k < |segments|
    ensures k >= 0 ==> StartsWith(segments[k], prefix)
    ensures forall j :: 0 <= j < |segments| && (k == -1 || j < k) ==> !StartsWith(segments[j], prefix)
    decreases |segments|
  {
    if segments == [] then -1
    else if StartsWith(segments[0], prefix) then 0
    else
      var k := FirstStartingWith(segments[1..], prefix);
      if k == -1 then -1 else k + 1
  }

  /**
   * `document.cookie.split('; ').find(row => row.startsWith('customerUUID'))?.split('=')[1]`:
   * the text between the first and second `=` of the first matching segment.
   */
  function CookieValue(cookie: string): (r: Option<string>)
    ensures r.Some? ==> '=' !in r.value
  {
    var segments := Split(cookie, SegmentSeparator);
    var k := FirstStartingWith(segments, CookieName);
    if k == -1 then None
    else
      var parts := Split(segments[k], "=");
      if |parts| < 2 then None
      else
        SplitPiecesAvoidSeparator(segments[k], "=");
        Some(parts[1])
  }

  /** The pieces of a split never contain a one-character separator. */
  lemma {:induction false} SplitPiecesAvoidSeparator(s: string, sep: string)
    requires |sep| == 1
    ensures forall i :: 0 <= i < |Split(s, sep)| ==> sep[0] !in Split(s, sep)[i]
    decreases |s|
  {
    if |s| >= |sep| {
      SplitPiecesAvoidSeparator(s[|sep|..], sep);
      SplitPiecesAvoidSeparator(s[1..], sep);
      if s[..|sep|] != sep {
        assert s[0] != sep[0];
        var rest := Split(s[1..], sep);
        assert [s[0]] + rest[0] == [s[0]] + rest[0];
      }
    }
  }

  /** The pieces of the attribute string `getCustomerId` builds; the last is empty over http. */
  function CookieOptions(id: string, protocol: string): seq<string> {
    [CookieName + "=" + id, "path=/", MaxAgeAttribute, "SameSite=Strict",
     if protocol == "https:" then "Secure" else ""]
  }

  /** `cookieOptions.filter(Boolean)`. */
  function CookieParts(id: string, protocol: string): seq<string> {
    Filter((p: string) => p != "", CookieOptions(id, protocol))
  }

  /** `cookieOptions.filter(Boolean).join('; ')`, the string assigned to `document.cookie`. */
  function CookieAttributes(id: string, protocol: string): string {
    Join(CookieParts(id, protocol), SegmentSeparator)
  }

  /** The attributes after the name/value pair, with `; Secure` exactly over https. */
  function AttributeSuffix(protocol: string): string {
    "path=/; max-age=31536000; SameSite=Strict" + (if protocol == "https:" then "; Secure" else "")
  }

  /**
   * The pieces joined are the name/value pair, the path, the one-year max-age,
   * SameSite=Strict and, over https only, Secure; none of them is empty.
   */
  lemma CookiePartsForm(id: string, protocol: string)
    ensures var parts := CookieParts(id, protocol);
      && parts == [CookieName + "=" + id, "path=/", MaxAgeAttribute, "SameSite=Strict"]
                  + (if protocol == "https:" then ["Secure"] else [])
      && forall i :: 0 <= i < |parts| ==> parts[i] != ""
  {
    var opts := CookieOptions(id, protocol);
    var keep := (p: string) => p != "";
    var fixed := [CookieName + "=" + id, "path=/", MaxAgeAttribute, "SameSite=Strict"];
    assert opts == fixed + [opts[4]];
    assert opts[..4] == fixed;
    FilterKeepsAll(keep, fixed);
  }

  /** The string written is the name/value pair followed by the fixed attributes. */
  lemma CookieAttributesForm(id: string, protocol: string)
    ensures CookieAttributes(id, protocol) == CookieName + "=" + id + SegmentSeparator + AttributeSuffix(protocol)
  {
    CookiePartsForm(id, protocol);
    var pair := CookieName + "=" + id;
    var tail := AttributeParts(protocol);
    assert CookieParts(id, protocol) == [pair] + tail;
    JoinCons(pair, tail, SegmentSeparator);
    JoinAttributeParts(protocol);
  }

  function AttributeParts(protocol: string): seq<string> {
    ["path=/", MaxAgeAttribute, "SameSite=Strict"] + (if protocol == "https:" then ["Secure"] else [])
  }

  lemma JoinAttributeParts(protocol: string)
    ensures Join(AttributeParts(protocol), SegmentSeparator) == AttributeSuffix(protocol)
  {
    if protocol == "https:" {
      assert AttributeParts(protocol) == ["path=/", "max-age=31536000", "SameSite=Strict", "Secure"];
      JoinHttpsAttributes();
    } else {
      assert AttributeParts(protocol) == ["path=/", "max-age=31536000", "SameSite=Strict"];
      JoinHttpAttributes();
    }
  }

  lemma JoinHttpAttributes()
    ensures Join(["path=/", "max-age=31536000", "SameSite=Strict"], "; ")
         == "path=/; max-age=31536000; SameSite=Strict"
  {
    var l := ["path=/", "max-age=31536000", "SameSite=Strict"];
    assert l[1..] == ["max-age=31536000", "SameSite=Strict"];
    assert l[1..][1..] == ["SameSite=Strict"];
    assert Join(l[1..], "; ") == "max-age=31536000" + "; " + "SameSite=Strict";
  }

  lemma JoinHttpsAttributes()
    ensures Join(["path=/", "max-age=31536000", "SameSite=Strict", "Secure"], "; ")
         == "path=/; max-age=31536000; SameSite=Strict" + "; Secure"
  {
    var http := ["path=/", "max-age=31536000", "SameSite=Strict"];
    var sep := "; ";
    JoinHttpAttributes();
    JoinAppend(http, "Secure", sep);
    assert http + ["Secure"] == ["path=/", "max-age=31536000", "SameSite=Strict", "Secure"];
  }

  /** A cookie string whose first segment is `customerUUID=<id>` yields `id`. */
  lemma {:induction false} CookieValueOfFirstPair(id: string, rest: string)
    requires '=' !in id && ';' !in id
    ensures CookieValue(CookieName + "=" + id) == Some(id)
    ensures CookieValue(CookieName + "=" + id + SegmentSeparator + rest) == Some(id)
  {
    var pair := CookieName + "=" + id;
    assert ';' !in CookieName && '=' !in CookieName;
    assert ';' !in pair;
    SplitAtFirstSeparator(CookieName, "=", id);
    SplitWithoutSeparator(id, "=");
    assert pair[..|CookieName|] == CookieName;
    SplitWithoutSeparator(pair, SegmentSeparator);
    SplitAtFirstSeparator(pair, SegmentSeparator, rest);
  }

  /** The pair `customerUUID=<id>` splits on `=` into the name and the id. */
  lemma PairSplitsAtEquals(id: string)
    requires '=' !in id
    ensures Split(CookieName + "=" + id, "=") == [CookieName, id]
  {
    assert '=' !in CookieName;
    SplitAtFirstSeparator(CookieName, "=", id);
    SplitWithoutSeparator(id, "=");
  }

  /**
   * A cookie string listing other cookies first, as `document.cookie`
   * usually does, still yields the id: the lookup skips every earlier
   * cookie that does not start with `customerUUID` and reads the pair,
   * whatever cookies follow it.
   */
  lemma {:induction false} CookieValueAmongOtherCookies(before: seq<string>, id: string, after: seq<string>)
    requires '=' !in id && ';' !in id
    requires forall i :: 0 <= i < |before| ==> ';' !in before[i] && !StartsWith(before[i], CookieName)
    ensures CookieValue(Join(before + [CookieName + "=" + id] + after, SegmentSeparator)) == Some(id)
  {
    var pair := CookieName + "=" + id;
    assert ';' !in CookieName && '=' !in CookieName;
    assert ';' !in pair;
    var ys := [pair] + after;
    assert before + [pair] + after == before + ys;
    SplitJoinedPrefix(before, ys, SegmentSeparator);
    var tail: seq<string>;
    if after == [] {
      assert ys == [pair];
      SplitWithoutSeparator(pair, SegmentSeparator);
      tail := [pair];
    } else {
      assert ys[1..] == after;
      assert Join(ys, SegmentSeparator) == pair + SegmentSeparator + Join(after, SegmentSeparator);
      SplitAtFirstSeparator(pair, SegmentSeparator, Join(after, SegmentSeparator));
      tail := [pair] + Split(Join(after, SegmentSeparator), SegmentSeparator);
    }
    var segments := Split(Join(before + ys, SegmentSeparator), SegmentSeparator);
    assert segments == before + tail;
    assert segments[|before|] == pair;
    assert pair[..|CookieName|] == CookieName;
    var k := FirstStartingWith(segments, CookieName);
    assert k == |before|;
    PairSplitsAtEquals(id);
  }

  /** For instance, with one other cookie set before it. */
  lemma CookieValueAfterThemeCookie(id: string)
    requires '=' !in id && ';' !in id
    ensures CookieValue("theme=dark; " + CookieName + "=" + id) == Some(id)
  {
    var before := ["theme=dark"];
    assert !StartsWith(before[0], CookieName);
    CookieValueAmongOtherCookies(before, id, []);
    var pair := CookieName + "=" + id;
    var l := before + [pair] + [];
    assert l == ["theme=dark", pair] && l[1..] == [pair];
    assert Join(l, SegmentSeparator) == "theme=dark" + SegmentSeparator + pair;
    assert "theme=dark" + SegmentSeparator + pair == "theme=dark; " + CookieName + "=" + id;
  }

  /** Looking up the string just written returns the id just generated. */
  lemma CookieRoundTrip(id: string, protocol: string)
    requires '=' !in id && ';' !in id
    ensures CookieValue(CookieAttributes(id, protocol)) == Some(id)
  {
    CookieAttributesForm(id, protocol);
    CookieValueOfFirstPair(id, AttributeSuffix(protocol));
  }

  /** The id `getCustomerId` returns, and the string it assigns to `document.cookie`, if any. */
  datatype CookieIdentity = CookieIdentity(id: string, written: Option<string>)

  function LookupOrCreateCookie(cookie: string, protocol: string, freshId: string): (r: CookieIdentity)
    ensures match CookieValue(cookie)
      case Some(v) =>
        if v != "" then r == CookieIdentity(v, None)
        else r == CookieIdentity(freshId, Some(CookieAttributes(freshId, protocol)))
      case None => r == CookieIdentity(freshId, Some(CookieAttributes(freshId, protocol)))
  {
    var found := CookieValue(cookie);
    if found.Some? && found.value != "" then CookieIdentity(found.value, None)
    else CookieIdentity(freshId, Some(CookieAttributes(freshId, protocol)))
  }

  /**
   * Once an id without `=` or `;` has been written, the next call reads it
   * back and writes nothing; a present id is returned as it is.
   */
  lemma CookieIdentityIdempotent(cookie: string, protocol: string, freshId: string, laterFreshId: string)
    requires freshId != "" && '=' !in freshId && ';' !in freshId
    ensures var first := LookupOrCreateCookie(cookie, protocol, freshId);
      var after := if first.written.Some? then first.written.value else cookie;
      LookupOrCreateCookie(after, protocol, laterFreshId) == CookieIdentity(first.id, None)
  {
    var first := LookupOrCreateCookie(cookie, protocol, freshId);
    if first.written.Some? {
      CookieRoundTrip(freshId, protocol);
    }
  }

  /** The page's `document`, whose `cookie` property the code reads and assigns. */
  class Document {
    var cookie: string

    constructor (initial: string)
      ensures cookie == initial
    {
      cookie := initial;
    }

    /** `getCustomerId`, with `protocol` for `window.location.protocol` and `freshId` for `uuidv4()`. */
    method GetCustomerId(protocol: string, freshId: string) returns (id: string)
      modifies this
      ensures var r := LookupOrCreateCookie(old(cookie), protocol, freshId);
        && id == r.id
        && cookie == (if r.written.Some? then r.written.value else old(cookie))
    {
      var found := CookieValue(cookie);
      if found.None? || found.value == "" {
        id := freshId;
        cookie := CookieAttributes(id, protocol);
      } else {
        id := found.value;
      }
    }
  }
}
