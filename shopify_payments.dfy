/** Payments activation: navigation to the payments settings of the current
    store (the store slug is cut out of the admin URL), the business-details
    step, and the final submission, which requires exactly three "Ready"
    sections. Page interactions are abstract inputs. */
module Payments {
  import opened Common

  /** The URL prefix that says the browser is inside a store's admin. */
  const AdminStorePrefix := "admin.shopify.com/store/"
  const StoreMarker := "/store/"
  const AdminOrigin := "https://admin.shopify.com"
  const PaymentsSuffix := "/settings/payments"
  const InterviewUrl := "profile-assessment/interview"
  /** Sections that must show "Ready": business, representative, terms. */
  const ReadySections := 3

  /** The payments settings page of store `slug`. */
  function PaymentsUrl(slug: string): string {
    AdminOrigin + StoreMarker + slug + PaymentsSuffix
  }

  /** `s.split(sep)[1]`: the text between the first and the second occurrence
      of `sep` (or to the end); None when `sep` does not occur. */
  function SecondPiece(s: string, sep: string): (r: Option<string>)
    requires sep != []
    ensures r.None? <==> !Contains(s, sep)
    ensures r.Some? ==> var k := IndexOf(s, sep).value;
              var after := s[k + |sep|..];
              && |r.value| <= |after| && r.value == after[..|r.value|]
              && !Contains(r.value, sep)
              && (|r.value| == |after| || OccursAt(after, sep, |r.value|))
  {
    match IndexOf(s, sep)
    case None => None
    case Some(k) =>
      var after := s[k + |sep|..];
      match IndexOf(after, sep)
      case None => Some(after)
      case Some(j) =>
        NoOccurrenceBefore(after, sep, j);
        Some(after[..j])
  }

  /** A text cut just before the first occurrence of `sep` does not contain
      `sep`. */
  lemma NoOccurrenceBefore(t: string, sep: string, j: nat)
    requires sep != [] && j <= |t|
    requires forall i :: 0 <= i < j ==> !OccursAt(t, sep, i)
    ensures !Contains(t[..j], sep)
  {
    forall i | 0 <= i <= j - |sep|
      ensures !OccursAt(t[..j], sep, i)
    {
      assert i < j;
      assert !OccursAt(t, sep, i);
      assert t[..j][i..i + |sep|] == t[i..i + |sep|];
    }
  }

  /** `url.split('/store/')[1].split('/')[0]`; None when indexing `[1]` raises. */
  function StoreSlug(url: string): (r: Option<string>)
    ensures r.Some? ==> '/' !in r.value
    ensures r.None? <==> !Contains(url, StoreMarker)
  {
    match SecondPiece(url, StoreMarker)
    case None => None
    case Some(piece) => Some(FirstField(piece, '/'))
  }

  /** Cutting at a later boundary that is itself a `c` (or the end) does not
      change the first field. */
  lemma {:induction false} FirstFieldOfPrefix(t: string, s: string, c: char)
    requires |t| <= |s| && t == s[..|t|]
    requires |t| < |s| ==> s[|t|] == c
    ensures FirstField(t, c) == FirstField(s, c)
  {
    if t != [] && t[0] != c {
      assert s[0] == t[0];
      assert t[1..] == s[1..][..|t| - 1];
      FirstFieldOfPrefix(t[1..], s[1..], c);
    }
  }

  /** The slug is the path segment right after the first `/store/`: the
      second split on `/store/` never changes it. */
  lemma StoreSlugIsSegmentAfterMarker(url: string)
    requires Contains(url, StoreMarker)
    ensures StoreSlug(url) == Some(FirstField(url[IndexOf(url, StoreMarker).value + |StoreMarker|..], '/'))
  {
    var k := IndexOf(url, StoreMarker).value;
    var after := url[k + |StoreMarker|..];
    match IndexOf(after, StoreMarker)
    case None =>
    case Some(j) =>
      assert OccursAt(after, StoreMarker, j);
      assert after[j] == after[j..j + |StoreMarker|][0] == '/';
      FirstFieldOfPrefix(after[..j], after, '/');
  }

  /** The admin prefix contains the `/store/` marker. */
  lemma AdminPrefixHasMarker(url: string)
    requires Contains(url, AdminStorePrefix)
    ensures Contains(url, StoreMarker)
  {
    var i :| 0 <= i <= |url| - |AdminStorePrefix| && OccursAt(url, AdminStorePrefix, i);
    assert url[i + 17..i + 24] == AdminStorePrefix[17..24];
    assert OccursAt(url, StoreMarker, i + 17);
  }

  /** `navigate_to_payments`: `current` is None when reading the URL raised;
      `loadRaised` says opening the target raised. The result is the page
      opened when the call answers True, None when it answers False. */
  function NavigateToPayments(current: Option<string>, loadRaised: bool): (r: Option<string>)
    ensures r.Some? <==> current.Some? && Contains(current.value, AdminStorePrefix) && !loadRaised
    ensures r.Some? ==> StoreSlug(current.value).Some? && r.value == PaymentsUrl(StoreSlug(current.value).value)
  {
    if current.None? || !Contains(current.value, AdminStorePrefix) then None
    else
      AdminPrefixHasMarker(current.value);
      var slug := StoreSlug(current.value).value;
      if loadRaised then None else Some(PaymentsUrl(slug))
  }

  /** The first field of a slug followed by a `/...` suffix is the slug. */
  lemma {:induction false} FirstFieldOfSlug(slug: string, rest: string)
    requires '/' !in slug && rest != [] && rest[0] == '/'
    ensures FirstField(slug + rest, '/') == slug
  {
    if slug != [] {
      assert (slug + rest)[0] == slug[0] && (slug + rest)[1..] == slug[1..] + rest;
      FirstFieldOfSlug(slug[1..], rest);
    }
  }

  /** A payments URL is the fixed store prefix followed by the slug and the
      payments path. */
  lemma PaymentsUrlShape(slug: string)
    ensures PaymentsUrl(slug) == (AdminOrigin + StoreMarker) + (slug + PaymentsSuffix)
    ensures PaymentsUrl(slug)[|AdminOrigin + StoreMarker|..] == slug + PaymentsSuffix
    ensures PaymentsUrl(slug)[..|AdminOrigin + StoreMarker|] == AdminOrigin + StoreMarker
  {
  }

  /** No `/store/` occurs inside the origin, so the first marker of a payments
      URL is the one right after it. */
  lemma MarkerPosition(slug: string)
    ensures IndexOf(PaymentsUrl(slug), StoreMarker) == Some(|AdminOrigin|)
  {
    var p := AdminOrigin + StoreMarker;
    var u := PaymentsUrl(slug);
    PaymentsUrlShape(slug);
    assert u[|AdminOrigin|..|p|] == p[|AdminOrigin|..] == StoreMarker;
    assert OccursAt(u, StoreMarker, |AdminOrigin|);
    forall j | 0 <= j < |AdminOrigin|
      ensures !OccursAt(u, StoreMarker, j)
    {
      assert u[j] == p[j] == AdminOrigin[j];
      if j + 1 < |AdminOrigin| {
        assert u[j + 1] == p[j + 1] == AdminOrigin[j + 1];
      }
    }
  }

  /** Round trip: the slug read back from a store's payments URL is the store's
      slug. */
  lemma {:induction false} SlugRoundTrip(slug: string)
    requires '/' !in slug
    ensures StoreSlug(PaymentsUrl(slug)) == Some(slug)
  {
    var u := PaymentsUrl(slug);
    MarkerPosition(slug);
    PaymentsUrlShape(slug);
    StoreSlugIsSegmentAfterMarker(u);
    FirstFieldOfSlug(slug, PaymentsSuffix);
  }

  /** Navigating from a store's payments page opens that same page again. */
  lemma NavigationIsIdempotent(slug: string)
    requires '/' !in slug
    ensures NavigateToPayments(Some(PaymentsUrl(slug)), false) == Some(PaymentsUrl(slug))
  {
    var u := PaymentsUrl(slug);
    assert u[8..8 + |AdminStorePrefix|] == AdminStorePrefix;
    assert OccursAt(u, AdminStorePrefix, 8);
    SlugRoundTrip(slug);
  }

  /** `submit_business_details`: the submit button was clicked, the setup
      heading appeared, the browser then is on the interview page (`url` None
      when reading it raised), and the business type could be selected. */
  function SubmitBusinessDetails(clicked: bool, headingShown: bool, url: Option<string>, typeSelected: bool): (ok: bool)
    ensures ok ==> url.Some? && Contains(url.value, InterviewUrl)
    ensures ok <==> clicked && headingShown && url.Some? && Contains(url.value, InterviewUrl) && typeSelected
  {
    if !clicked || !headingShown || url.None? then false
    else if !Contains(url.value, InterviewUrl) then false
    else typeSelected
  }

  /** `submit_for_verification`: `readyCount` is the number of "Ready" markers
      found (0 when none appeared within the wait), then the submit button is
      clicked and a confirmation is awaited. */
  function SubmitForVerification(readyCount: nat, clicked: bool, confirmed: bool): (ok: bool)
    ensures ok ==> readyCount == ReadySections
    ensures readyCount == ReadySections && clicked ==> ok == confirmed
    ensures !clicked ==> !ok
  {
    if readyCount == 0 then false
    else if readyCount != ReadySections then false
    else clicked && confirmed
  }
}
