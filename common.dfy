/** Values shared by every part of the model: optional results, replies of the
    local profile service, the live browser session handle, and the few string
    operations (substring test, ASCII lower-casing, first occurrence, strip) the
    page-state checks are built from. */
module Common {

  datatype Option<T> = None | Some(value: T) {
    function GetOr(default: T): T {
      match this
      case Some(v) => v
      case None => default
    }
  }

  /** A reply of the local profile service: either the request or the JSON
      decoding raised, or the service answered with a status code, a message and
      a payload. */
  datatype Reply<T> = Raised | Answer(code: int, msg: string, data: T) {
    predicate IsOk() { Answer? && code == 0 }
  }

  /** The payload of a successful `browser/start` call; a field is None when
      the key is absent from the reply. */
  datatype LaunchData = LaunchData(
    selenium: Option<string>,
    webdriver: Option<string>,
    debugPort: Option<string>,
    puppeteer: Option<string>)

  /** The browser information both profile clients return after a start:
      the automation endpoint, the driver path, the profile id, and the debug
      port and puppeteer endpoint ("" when absent). */
  datatype BrowserInfo = BrowserInfo(
    seleniumAddress: string,
    webdriver: string,
    userId: string,
    debugPort: string,
    puppeteerWs: string)

  /** The browser information built from a start reply's payload; None when
      one of the two mandatory keys is missing (indexing it raises). */
  function InfoFrom(userId: string, d: LaunchData): (r: Option<BrowserInfo>)
    ensures r.Some? <==> d.selenium.Some? && d.webdriver.Some?
    ensures r.Some? ==> r.value.userId == userId && r.value.seleniumAddress == d.selenium.value
                        && r.value.webdriver == d.webdriver.value
    ensures r.Some? ==> r.value.debugPort == d.debugPort.GetOr("") && r.value.puppeteerWs == d.puppeteer.GetOr("")
  {
    if d.selenium.None? || d.webdriver.None? then None
    else Some(BrowserInfo(d.selenium.value, d.webdriver.value, userId, d.debugPort.GetOr(""), d.puppeteer.GetOr("")))
  }

  /** Whether a reply to a stop request counts as a successful stop: code 0, or
      a failure whose message says, in any letter case, that the browser was
      "not open". A request or decoding error is a failure. */
  predicate StopAccepted<T>(reply: Reply<T>) {
    reply.Answer? && (reply.code == 0 || Contains(Lower(reply.msg), "not open"))
  }

  /** The verdict on a stop reply ignores the letter case of its message. */
  lemma StopIgnoresCase<T>(code: int, msg: string, data: T)
    ensures StopAccepted(Answer(code, msg, data)) == StopAccepted(Answer(code, Lower(msg), data))
  {
    LowerIsIdempotent(msg);
  }

  /** Lowering twice is lowering once. */
  lemma LowerIsIdempotent(s: string)
    ensures Lower(Lower(s)) == Lower(s)
  {
    var t := Lower(s);
    assert forall i :: 0 <= i < |t| ==> Lower(t)[i] == t[i];
  }

  /** How a polling loop without its own iteration cap ended: it returned a
      verdict, or it was still polling when the observations ran out. */
  datatype Run = Finished(ok: bool) | StillRunning

  /** A live connection to one browser instance. Reconnection produces a new
      handle; handles are never mutated. */
  datatype Session = Session(id: nat)

  /** Python's `sub in s`. */
  predicate Contains(s: string, sub: string) {
    exists i :: 0 <= i <= |s| - |sub| && OccursAt(s, sub, i)
  }

  /** `sub` occurs in `s` at position `i`. */
  predicate OccursAt(s: string, sub: string, i: int) {
    0 <= i <= |s| - |sub| && s[i..i + |sub|] == sub
  }

  function LowerChar(c: char): char {
    if 'A' <= c <= 'Z' then (c as int + 32) as char else c
  }

  /** `s.lower()`, restricted to ASCII letters: no capital survives, a capital
      becomes the small letter 32 code points above it, and every other
      character is kept. */
  function Lower(s: string): (r: string)
    ensures |r| == |s|
    ensures forall i :: 0 <= i < |r| ==> !('A' <= r[i] <= 'Z')
    ensures forall i :: 0 <= i < |s| && 'A' <= s[i] <= 'Z' ==> r[i] as int == s[i] as int + 32
    ensures forall i :: 0 <= i < |s| && !('A' <= s[i] <= 'Z') ==> r[i] == s[i]
  {
    seq(|s|, i requires 0 <= i < |s| => LowerChar(s[i]))
  }

  /** The index of the first occurrence of `pat` in `s` at or after `from`. */
  function IndexFrom(s: string, pat: string, from: nat): (r: Option<nat>)
    decreases |s| - from
    ensures r.Some? ==> from <= r.value && OccursAt(s, pat, r.value)
    ensures r.Some? ==> forall j :: from <= j < r.value ==> !OccursAt(s, pat, j)
    ensures r.None? ==> forall j :: from <= j ==> !OccursAt(s, pat, j)
  {
    if from + |pat| > |s| then None
    else if s[from..from + |pat|] == pat then Some(from)
    else IndexFrom(s, pat, from + 1)
  }

  /** The index of the first occurrence of `pat` in `s` (Python's `s.find(pat)`). */
  function IndexOf(s: string, pat: string): (r: Option<nat>)
    ensures r.Some? ==> OccursAt(s, pat, r.value)
    ensures r.Some? ==> forall j :: 0 <= j < r.value ==> !OccursAt(s, pat, j)
    ensures r.None? <==> !Contains(s, pat)
  {
    var r := IndexFrom(s, pat, 0);
    assert r.Some? ==> OccursAt(s, pat, r.value);
    r
  }

  /** The part of `s` before the first `c` (Python's `s.split(c)[0]`). */
  function FirstField(s: string, c: char): (r: string)
    ensures |r| <= |s| && r == s[..|r|]
    ensures c !in r
    ensures |r| < |s| ==> s[|r|] == c
  {
    if s == [] then []
    else if s[0] == c then []
    else [s[0]] + FirstField(s[1..], c)
  }

  /** Whitespace as Python's `str.strip()` sees it, restricted to ASCII: tab,
      line feed, vertical tab, form feed, carriage return, the four
      separators 28 to 31, and the space. */
  predicate IsSpace(c: char) {
    c == ' ' || c == '\t' || c == '\n' || c == 11 as char || c == 12 as char || c == '\r'
    || c == 28 as char || c == 29 as char || c == 30 as char || c == 31 as char
  }

  function TrimLeft(s: string): (r: string)
    ensures |r| <= |s| && r == s[|s| - |r|..]
    ensures r != [] ==> !IsSpace(r[0])
    ensures forall i :: 0 <= i < |s| - |r| ==> IsSpace(s[i])
  {
    if s != [] && IsSpace(s[0]) then TrimLeft(s[1..]) else s
  }

  function TrimRight(s: string): (r: string)
    ensures |r| <= |s| && r == s[..|r|]
    ensures r != [] ==> !IsSpace(r[|r| - 1])
    ensures forall i :: |r| <= i < |s| ==> IsSpace(s[i])
  {
    if s != [] && IsSpace(s[|s| - 1]) then TrimRight(s[..|s| - 1]) else s
  }

  /** `s.strip()`: a stretch of `s` that neither starts nor ends with
      whitespace, with only whitespace around it. */
  function Strip(s: string): (r: string)
    ensures r != [] ==> !IsSpace(r[0]) && !IsSpace(r[|r| - 1])
    ensures |s| - |TrimLeft(s)| + |r| <= |s|
    ensures OccursAt(s, r, |s| - |TrimLeft(s)|)
    ensures forall i :: |s| - |TrimLeft(s)| + |r| <= i < |s| ==> IsSpace(s[i])
  {
    TrimmedRightStaysInPlace(s, TrimLeft(s), TrimRight(TrimLeft(s)));
    TrimRight(TrimLeft(s))
  }

  /** The whitespace TrimRight drops from the suffix `left` of `s` is the
      tail of `s`. */
  lemma TrimmedRightStaysInPlace(s: string, left: string, r: string)
    requires |left| <= |s| && left == s[|s| - |left|..]
    requires |r| <= |left| && r == left[..|r|]
    requires forall i :: |r| <= i < |left| ==> IsSpace(left[i])
    ensures OccursAt(s, r, |s| - |left|)
    ensures forall i :: |s| - |left| + |r| <= i < |s| ==> IsSpace(s[i])
  {
    var k := |s| - |left|;
    assert s[k..k + |r|] == r;
    forall i | k + |r| <= i < |s|
      ensures IsSpace(s[i])
    {
      assert s[i] == left[i - k];
    }
  }

  /** Stripping twice is stripping once. */
  lemma StripIsIdempotent(s: string)
    ensures Strip(Strip(s)) == Strip(s)
  {
    var r := Strip(s);
    if r != [] {
      assert TrimLeft(r) == r;
      assert TrimRight(r) == r;
    }
  }

  /** Number of `true` entries: how many indicators of a group matched. None
      match exactly when the count is zero. */
  function Count(bs: seq<bool>): (n: nat)
    ensures n <= |bs|
    ensures n == 0 <==> !(true in bs)
  {
    if bs == [] then 0 else (if bs[|bs| - 1] then 1 else 0) + Count(bs[..|bs| - 1])
  }

  /** A scan of selectors, indicators or strategies in order that stops at
      the first that succeeds. */
  method FirstHit(found: seq<bool>) returns (hit: bool)
    ensures hit <==> true in found
  {
    hit := false;
    var i := 0;
    while i < |found|
      invariant 0 <= i <= |found|
      invariant !(true in found[..i])
    {
      if found[i] {
        return true;
      }
      assert found[..i + 1] == found[..i] + [found[i]];
      i := i + 1;
    }
    assert found[..i] == found;
  }
}
