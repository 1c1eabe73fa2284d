/**
 * WhatsApp detection (`detect_whatsapp` in scraper.py): three tiers of
 * evidence, checked in order on the lower-cased page, and the phone number
 * taken from the first `wa.me/` link of the original page text.
 */
module WhatsApp {

  import opened Wrappers
  import opened Strings
  import opened Config

  /** The confidence levels, best first. */
  datatype Confidence = Definitive | Widget | Maybe | NoSignal {

    /** The text the result carries in its `confidence` field. */
    function Name(): string {
      match this
      case Definitive => "definitive"
      case Widget => "widget"
      case Maybe => "maybe"
      case NoSignal => "none"
    }

    /** Strength of the evidence: higher is stronger. */
    function Rank(): nat {
      match this
      case Definitive => 3
      case Widget => 2
      case Maybe => 1
      case NoSignal => 0
    }
  }

  datatype WhatsAppResult = WhatsAppResult(found: bool, confidence: Confidence, phone: Option<string>)

  /** The result that nothing was detected (the record's defaults). */
  const NotDetected := WhatsAppResult(false, NoSignal, None)

  // ---------------------------------------------------------------------------
  // The phone pattern `wa\.me/(\+?\d{7,15})`, searched in the original text
  // ---------------------------------------------------------------------------

  const PhoneLinkPrefix: string := "wa.me/"
  const MinPhoneDigits: nat := 7
  const MaxPhoneDigits: nat := 15

  /** The number of decimal digits in a row starting at index `i`. */
  function DigitRunLength(s: string, i: nat): (n: nat)
    requires i <= |s|
    ensures i + n <= |s|
    ensures forall k :: i <= k < i + n ==> IsDigit(s[k])
    ensures i + n == |s| || !IsDigit(s[i + n])
    decreases |s| - i
  {
    if i < |s| && IsDigit(s[i]) then 1 + DigitRunLength(s, i + 1) else 0
  }

  /**
   * The digits the greedy `\d{7,15}` takes at `i`: the whole run, cut at
   * fifteen digits, when the run has at least seven.
   */
  function DigitsAt(s: string, i: nat): Option<string>
    requires i <= |s|
  {
    var n := DigitRunLength(s, i);
    if n < MinPhoneDigits then None
    else if n > MaxPhoneDigits then Some(s[i..i + MaxPhoneDigits])
    else Some(s[i..i + n])
  }

  /**
   * The captured group when the pattern matches at `p`. The optional `+` is
   * greedy: when it is present it is taken; leaving it out cannot help, since
   * `\d` never matches `+`.
   */
  function PhoneAt(html: string, p: nat): Option<string>
    requires p <= |html|
  {
    if !OccursAt(html, PhoneLinkPrefix, p) then None
    else
      var q := p + |PhoneLinkPrefix|;
      if q < |html| && html[q] == '+' then
        match DigitsAt(html, q + 1)
        case Some(d) => Some("+" + d)
        case None => None
      else DigitsAt(html, q)
  }

  /** `re.search`: the match at the leftmost position from `p` on. */
  function FindPhoneFrom(html: string, p: nat): Option<string>
    requires p <= |html|
    decreases |html| - p
  {
    if PhoneAt(html, p).Some? then PhoneAt(html, p)
    else if p == |html| then None
    else FindPhoneFrom(html, p + 1)
  }

  function FindPhone(html: string): Option<string> {
    FindPhoneFrom(html, 0)
  }

  /** A phone as the pattern captures it: an optional `+`, then 7 to 15 digits. */
  predicate IsPhone(ph: string) {
    var digits := if ph != [] && ph[0] == '+' then ph[1..] else ph;
    MinPhoneDigits <= |digits| <= MaxPhoneDigits && forall k :: 0 <= k < |digits| ==> IsDigit(digits[k])
  }

  /** What a match at `p` captures: a phone that follows `wa.me/` at `p`. */
  lemma PhoneAtShape(html: string, p: nat)
    requires p <= |html| && PhoneAt(html, p).Some?
    ensures IsPhone(PhoneAt(html, p).value)
    ensures p + |PhoneLinkPrefix| + |PhoneAt(html, p).value| <= |html|
    ensures html[p..p + |PhoneLinkPrefix| + |PhoneAt(html, p).value|] == PhoneLinkPrefix + PhoneAt(html, p).value
  {
    var q := p + |PhoneLinkPrefix|;
    var ph := PhoneAt(html, p).value;
    assert html[p..q] == PhoneLinkPrefix;
    if q < |html| && html[q] == '+' {
      var d := DigitsAt(html, q + 1).value;
      assert ph == "+" + d;
      assert html[q..q + |ph|] == ph;
    } else {
      assert html[q..q + |ph|] == ph;
    }
    assert html[p..q + |ph|] == html[p..q] + html[q..q + |ph|];
  }

  /**
   * The search result is the capture at the leftmost position where the
   * pattern matches, and there is a result exactly when some position matches.
   */
  lemma {:induction false} FindPhoneFromIsLeftmost(html: string, p: nat)
    requires p <= |html|
    ensures FindPhoneFrom(html, p).Some? <==> exists q :: p <= q <= |html| && PhoneAt(html, q).Some?
    ensures FindPhoneFrom(html, p).Some? ==>
              exists q :: p <= q <= |html| && PhoneAt(html, q) == FindPhoneFrom(html, p)
                          && forall m :: p <= m < q ==> PhoneAt(html, m).None?
    decreases |html| - p
  {
    if PhoneAt(html, p).None? && p < |html| {
      FindPhoneFromIsLeftmost(html, p + 1);
      if FindPhoneFrom(html, p).Some? {
        var q :| p + 1 <= q <= |html| && PhoneAt(html, q) == FindPhoneFrom(html, p + 1)
                 && forall m :: p + 1 <= m < q ==> PhoneAt(html, m).None?;
        assert forall m :: p <= m < q ==> PhoneAt(html, m).None?;
      }
      if exists q :: p <= q <= |html| && PhoneAt(html, q).Some? {
        var q :| p <= q <= |html| && PhoneAt(html, q).Some?;
        assert q != p;
      }
    }
  }

  /** `detect_whatsapp`: the strongest tier with a match decides; a phone only with a deep link. */
  function DetectWhatsApp(html: string): (r: WhatsAppResult)
    ensures r.found <==> r.confidence != NoSignal
    ensures r.phone.Some? ==> r.confidence == Definitive
  {
    if MentionsAny(html, WhatsAppDefinitivePatterns) then WhatsAppResult(true, Definitive, FindPhone(html))
    else if MentionsAny(html, WhatsAppWidgetPatterns) then WhatsAppResult(true, Widget, None)
    else if MentionsAny(html, WhatsAppWeakPatterns) then WhatsAppResult(true, Maybe, None)
    else NotDetected
  }

  // ---------------------------------------------------------------------------
  // What detection promises
  // ---------------------------------------------------------------------------

  /**
   * Each confidence level means: its tier matches and no stronger tier does;
   * "none" means no tier matches at all.
   */
  lemma ConfidenceMeansTier(html: string)
    ensures DetectWhatsApp(html).confidence == Definitive <==> MentionsAny(html, WhatsAppDefinitivePatterns)
    ensures DetectWhatsApp(html).confidence == Widget <==>
              !MentionsAny(html, WhatsAppDefinitivePatterns) && MentionsAny(html, WhatsAppWidgetPatterns)
    ensures DetectWhatsApp(html).confidence == Maybe <==>
              !MentionsAny(html, WhatsAppDefinitivePatterns) && !MentionsAny(html, WhatsAppWidgetPatterns)
              && MentionsAny(html, WhatsAppWeakPatterns)
    ensures !DetectWhatsApp(html).found <==>
              !MentionsAny(html, WhatsAppDefinitivePatterns) && !MentionsAny(html, WhatsAppWidgetPatterns)
              && !MentionsAny(html, WhatsAppWeakPatterns)
  {
  }

  /** A number the search finds is well formed and follows a `wa.me/` link of the page. */
  lemma FoundPhoneComesFromLink(html: string)
    requires FindPhone(html).Some?
    ensures IsPhone(FindPhone(html).value)
    ensures Contains(html, PhoneLinkPrefix + FindPhone(html).value)
  {
    var q := MatchPosition(html, 0);
    var ph := FindPhone(html).value;
    PhoneAtShape(html, q);
    assert OccursAt(html, PhoneLinkPrefix + ph, q);
  }

  /** The position whose match the search returns. */
  lemma {:induction false} MatchPosition(html: string, p: nat) returns (q: nat)
    requires p <= |html| && FindPhoneFrom(html, p).Some?
    ensures p <= q <= |html| && PhoneAt(html, q) == FindPhoneFrom(html, p)
    decreases |html| - p
  {
    if PhoneAt(html, p).Some? {
      q := p;
    } else {
      q := MatchPosition(html, p + 1);
    }
  }

  /** A reported phone is a well-formed number taken from a `wa.me/` link of the page. */
  lemma PhoneComesFromLink(html: string)
    requires DetectWhatsApp(html).phone.Some?
    ensures IsPhone(DetectWhatsApp(html).phone.value)
    ensures Contains(html, PhoneLinkPrefix + DetectWhatsApp(html).phone.value)
  {
    FoundPhoneComesFromLink(html);
  }

  /**
   * More text never weakens the evidence: the pages joined together are rated
   * at least as high as the first of them alone.
   */
  lemma ConfidenceMonotone(a: string, b: string)
    ensures DetectWhatsApp(a + b).confidence.Rank() >= DetectWhatsApp(a).confidence.Rank()
  {
    if MentionsAny(a, WhatsAppDefinitivePatterns) {
      MentionsAnyExtend(a, b, WhatsAppDefinitivePatterns);
    } else if MentionsAny(a, WhatsAppWidgetPatterns) {
      MentionsAnyExtend(a, b, WhatsAppWidgetPatterns);
    } else if MentionsAny(a, WhatsAppWeakPatterns) {
      MentionsAnyExtend(a, b, WhatsAppWeakPatterns);
    }
  }

  /** No non-empty pattern occurs in a page with no text. */
  lemma NoMentionsAnyEmpty(patterns: seq<string>)
    requires forall k :: 0 <= k < |patterns| ==> patterns[k] != []
    ensures !MentionsAny("", patterns)
  {
  }

  /** A page with no text shows no sign of WhatsApp. */
  lemma EmptyPageNotDetected()
    ensures DetectWhatsApp("") == NotDetected
  {
    NoMentionsAnyEmpty(WhatsAppDefinitivePatterns);
    NoMentionsAnyEmpty(WhatsAppWidgetPatterns);
    NoMentionsAnyEmpty(WhatsAppWeakPatterns);
  }

  /** The weak tier is case-blind: its two spellings lower-case to the same word. */
  lemma WeakTierIsOneWord()
    ensures Lower(WhatsAppWeakPatterns[0]) == Lower(WhatsAppWeakPatterns[1]) == "whatsapp"
  {
    assert Lower("WhatsApp") == "whatsapp";
    LowerIdempotent("whatsapp");
  }
}
