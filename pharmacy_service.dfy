/**
 * Lookup and lead-qualification rules: phone normalisation, lookup of a
 * caller in the directory, the pharmacy summary with its top medications,
 * the volume assessment of a lead, the next question to ask a lead and the
 * set-up of a conversation.
 */
module PharmacyService {
  import opened Wrappers
  import opened Text
  import opened Models

  // ---------------------------------------------------------------------------
  // Phone numbers

  predicate AllDigits(s: string) {
    forall i :: 0 <= i < |s| ==> IsDigit(s[i])
  }

  /** The digits of `phone`, in their original order; everything else is dropped. */
  function NormalizePhoneNumber(phone: string): (digits: string)
    ensures |digits| <= |phone|
  {
    if phone == [] then []
    else (if IsDigit(phone[0]) then [phone[0]] else []) + NormalizePhoneNumber(phone[1..])
  }

  /** The result holds digits only. */
  lemma {:induction false} NormalizeYieldsDigits(phone: string)
    ensures AllDigits(NormalizePhoneNumber(phone))
  {
    if phone != [] {
      NormalizeYieldsDigits(phone[1..]);
    }
  }

  /** Normalisation works piecewise: it is the concatenation of the normalised pieces. */
  lemma {:induction false} NormalizeConcat(a: string, b: string)
    ensures NormalizePhoneNumber(a + b) == NormalizePhoneNumber(a) + NormalizePhoneNumber(b)
  {
    if a == [] {
      assert a + b == b;
    } else {
      var head := if IsDigit(a[0]) then [a[0]] else [];
      assert (a + b)[0] == a[0];
      assert (a + b)[1..] == a[1..] + b;
      NormalizeConcat(a[1..], b);
      assert NormalizePhoneNumber(a + b) == head + (NormalizePhoneNumber(a[1..]) + NormalizePhoneNumber(b));
      assert head + (NormalizePhoneNumber(a[1..]) + NormalizePhoneNumber(b))
          == (head + NormalizePhoneNumber(a[1..])) + NormalizePhoneNumber(b);
    }
  }

  /** A string made only of digits is already normal. */
  lemma {:induction false} NormalizeKeepsDigits(s: string)
    requires AllDigits(s)
    ensures NormalizePhoneNumber(s) == s
  {
    if s != [] {
      NormalizeKeepsDigits(s[1..]);
    }
  }

  /** A string without digits normalises to the empty string. */
  lemma {:induction false} NormalizeDropsFormatting(s: string)
    requires forall i :: 0 <= i < |s| ==> !IsDigit(s[i])
    ensures NormalizePhoneNumber(s) == ""
  {
    if s != [] {
      NormalizeDropsFormatting(s[1..]);
    }
  }

  /** Normalising twice is normalising once. */
  lemma NormalizeIdempotent(phone: string)
    ensures NormalizePhoneNumber(NormalizePhoneNumber(phone)) == NormalizePhoneNumber(phone)
  {
    NormalizeYieldsDigits(phone);
    NormalizeKeepsDigits(NormalizePhoneNumber(phone));
  }

  /** Inserting formatting characters anywhere does not change the normal form. */
  lemma NormalizeIgnoresFormatting(before: string, formatting: string, after: string)
    requires forall i :: 0 <= i < |formatting| ==> !IsDigit(formatting[i])
    ensures NormalizePhoneNumber(before + formatting + after) == NormalizePhoneNumber(before + after)
  {
    NormalizeConcat(before + formatting, after);
    NormalizeConcat(before, formatting);
    NormalizeDropsFormatting(formatting);
    NormalizeConcat(before, after);
  }

  /** A dash followed by digits adds exactly those digits. */
  lemma NormalizeDashGroup(prefix: string, group: string)
    requires AllDigits(group)
    ensures NormalizePhoneNumber(prefix + "-" + group) == NormalizePhoneNumber(prefix) + group
  {
    var dashed := prefix + "-";
    assert NormalizePhoneNumber(dashed) == NormalizePhoneNumber(prefix) by {
      NormalizeConcat(prefix, "-");
      NormalizeDropsFormatting("-");
      assert NormalizePhoneNumber(prefix) + "" == NormalizePhoneNumber(prefix);
    }
    assert NormalizePhoneNumber(dashed + group) == NormalizePhoneNumber(dashed) + group by {
      NormalizeConcat(dashed, group);
      NormalizeKeepsDigits(group);
    }
  }

  /**
   * A number written as `+C-AAA-EEE-LLLL` (the directory's style) normalises
   * to its bare digits, which are already normal: both forms find the same record.
   */
  lemma DirectoryFormatMatchesBareDigits(country: string, area: string, exchange: string, line: string)
    requires AllDigits(country) && AllDigits(area) && AllDigits(exchange) && AllDigits(line)
    ensures NormalizePhoneNumber("+" + country + "-" + area + "-" + exchange + "-" + line)
            == country + area + exchange + line
  {
    var withCountry := "+" + country;
    assert NormalizePhoneNumber(withCountry) == country by {
      NormalizeConcat("+", country);
      NormalizeDropsFormatting("+");
      NormalizeKeepsDigits(country);
    }
    var withArea := withCountry + "-" + area;
    assert NormalizePhoneNumber(withArea) == country + area by {
      NormalizeDashGroup(withCountry, area);
    }
    var withExchange := withArea + "-" + exchange;
    assert NormalizePhoneNumber(withExchange) == country + area + exchange by {
      NormalizeDashGroup(withArea, exchange);
    }
    NormalizeDashGroup(withExchange, line);
  }

  // ---------------------------------------------------------------------------
  // Directory lookup

  /** Index of the first record whose normalised phone is `digits`, or `|pharmacies|` if none is. */
  function FirstMatchIndex(pharmacies: seq<Pharmacy>, digits: string): (i: nat)
    ensures i <= |pharmacies|
    ensures forall j :: 0 <= j < i ==> NormalizePhoneNumber(pharmacies[j].phone) != digits
    ensures i < |pharmacies| ==> NormalizePhoneNumber(pharmacies[i].phone) == digits
  {
    if pharmacies == [] then 0
    else if NormalizePhoneNumber(pharmacies[0].phone) == digits then 0
    else 1 + FirstMatchIndex(pharmacies[1..], digits)
  }

  /** Linear scan for the first record whose normalised phone equals the normalised query. */
  method FindPharmacyByPhone(pharmacies: seq<Pharmacy>, phone: string) returns (found: Option<Pharmacy>)
    ensures found.None? <==>
              forall j :: 0 <= j < |pharmacies| ==> NormalizePhoneNumber(pharmacies[j].phone) != NormalizePhoneNumber(phone)
    ensures found.Some? ==>
              var i := FirstMatchIndex(pharmacies, NormalizePhoneNumber(phone));
              i < |pharmacies| && found.value == pharmacies[i]
  {
    var normalizedSearch := NormalizePhoneNumber(phone);
    for i := 0 to |pharmacies|
      invariant forall j :: 0 <= j < i ==> NormalizePhoneNumber(pharmacies[j].phone) != normalizedSearch
    {
      if NormalizePhoneNumber(pharmacies[i].phone) == normalizedSearch {
        return Some(pharmacies[i]);
      }
    }
    return None;
  }

  // ---------------------------------------------------------------------------
  // Top medications: `sorted(prescriptions, key=count, reverse=True)[:3]`.
  // Positions are sorted rather than prescriptions, so that the stable order of
  // equal counts is part of the ordering itself.

  /** Position `i` comes before position `j`: a larger count, or the same count and earlier. */
  predicate RanksBefore(ps: seq<Prescription>, i: nat, j: nat)
    requires i < |ps| && j < |ps|
  {
    ps[i].count > ps[j].count || (ps[i].count == ps[j].count && i < j)
  }

  predicate Positions(ps: seq<Prescription>, s: seq<nat>) {
    forall k :: 0 <= k < |s| ==> s[k] < |ps|
  }

  predicate SortedByRank(ps: seq<Prescription>, s: seq<nat>)
    requires Positions(ps, s)
  {
    forall a, b :: 0 <= a < b < |s| ==> RanksBefore(ps, s[a], s[b])
  }

  function Range(n: nat): (r: seq<nat>)
    ensures |r| == n && forall k :: 0 <= k < n ==> r[k] == k
  {
    seq(n, k => k)
  }

  /** Insert position `x` into a ranked list of other positions, before the first it ranks before. */
  function Insert(ps: seq<Prescription>, x: nat, s: seq<nat>): (r: seq<nat>)
    requires x < |ps| && Positions(ps, s)
    ensures Positions(ps, r) && |r| == |s| + 1
    ensures multiset(r) == multiset(s) + multiset{x}
    ensures forall k :: 0 <= k < |r| ==> r[k] == x || r[k] in s
  {
    if s == [] || RanksBefore(ps, x, s[0]) then [x] + s
    else
      assert s == [s[0]] + s[1..];
      [s[0]] + Insert(ps, x, s[1..])
  }

  /** Inserting a new position into a ranked list keeps it ranked. */
  lemma {:induction false} InsertKeepsRank(ps: seq<Prescription>, x: nat, s: seq<nat>)
    requires x < |ps| && Positions(ps, s) && SortedByRank(ps, s)
    requires forall k :: 0 <= k < |s| ==> s[k] != x
    ensures SortedByRank(ps, Insert(ps, x, s))
  {
    if s != [] && !RanksBefore(ps, x, s[0]) {
      var rest := Insert(ps, x, s[1..]);
      InsertKeepsRank(ps, x, s[1..]);
      assert RanksBefore(ps, s[0], x);
      forall k | 0 <= k < |rest|
        ensures RanksBefore(ps, s[0], rest[k])
      {
        if rest[k] != x {
          var j :| 0 <= j < |s[1..]| && s[1..][j] == rest[k];
          assert s[j + 1] == rest[k];
        }
      }
    }
  }

  /** Extending the range by one adds its last position. */
  lemma RangeStep(n: nat)
    requires n > 0
    ensures multiset(Range(n)) == multiset(Range(n - 1)) + multiset{(n - 1) as nat}
  {
    assert Range(n) == Range(n - 1) + [n - 1];
  }

  /** Every element of a permutation of `0 .. n-1` is below `n`. */
  lemma PermutationOfRangeBounded(s: seq<nat>, n: nat)
    requires multiset(s) == multiset(Range(n))
    ensures forall k :: 0 <= k < |s| ==> s[k] < n
  {
    forall k | 0 <= k < |s|
      ensures s[k] < n
    {
      assert s[k] in multiset(Range(n));
    }
  }

  /** Every position below `n` occurs in a permutation of `0 .. n-1`. */
  lemma PermutationOfRangeCovers(s: seq<nat>, n: nat, k: nat) returns (p: nat)
    requires multiset(s) == multiset(Range(n)) && k < n
    ensures p < |s| && s[p] == k
  {
    assert Range(n)[k] == k;
    assert k in multiset(s);
    p :| p < |s| && s[p] == k;
  }

  /** Positions `0 .. n-1` in rank order. */
  function SortPositions(ps: seq<Prescription>, n: nat): (s: seq<nat>)
    requires n <= |ps|
    ensures Positions(ps, s) && SortedByRank(ps, s)
    ensures multiset(s) == multiset(Range(n)) && |s| == n
  {
    if n == 0 then []
    else
      var prefix := SortPositions(ps, n - 1);
      InsertLast(ps, prefix, n);
      Insert(ps, n - 1, prefix)
  }

  /** Inserting position `n-1` into a ranked permutation of `0 .. n-2` gives a ranked permutation of `0 .. n-1`. */
  lemma InsertLast(ps: seq<Prescription>, prefix: seq<nat>, n: nat)
    requires 0 < n <= |ps| && Positions(ps, prefix) && SortedByRank(ps, prefix)
    requires multiset(prefix) == multiset(Range(n - 1))
    ensures var r := Insert(ps, n - 1, prefix);
            Positions(ps, r) && SortedByRank(ps, r) && multiset(r) == multiset(Range(n)) && |r| == n
  {
    PermutationOfRangeBounded(prefix, n - 1);
    InsertKeepsRank(ps, n - 1, prefix);
    RangeStep(n);
    assert |prefix| == n - 1 by {
      assert |multiset(prefix)| == |multiset(Range(n - 1))|;
    }
  }

  /** A prefix of a ranked permutation of all positions is ranked, and ranks before every position it leaves out. */
  lemma PrefixRanksFirst(ps: seq<Prescription>, s: seq<nat>, m: nat)
    requires Positions(ps, s) && SortedByRank(ps, s) && multiset(s) == multiset(Range(|ps|)) && m <= |s|
    ensures Positions(ps, s[..m]) && SortedByRank(ps, s[..m])
    ensures forall k :: 0 <= k < |ps| && k !in s[..m] ==> forall a :: 0 <= a < m ==> RanksBefore(ps, s[..m][a], k)
  {
    var t := s[..m];
    assert forall q :: 0 <= q < m ==> t[q] == s[q];
    forall k | 0 <= k < |ps| && k !in t
      ensures forall a :: 0 <= a < m ==> RanksBefore(ps, t[a], k)
    {
      var p := PermutationOfRangeCovers(s, |ps|, k);
      assert p >= m;
    }
  }

  /**
   * The positions of the top three prescriptions: in rank order, and ranked
   * before every position left out.
   */
  function TopPositions(ps: seq<Prescription>): (t: seq<nat>)
    ensures |t| == if |ps| < 3 then |ps| else 3
    ensures Positions(ps, t) && SortedByRank(ps, t)
    ensures forall k :: 0 <= k < |ps| && k !in t ==> forall a :: 0 <= a < |t| ==> RanksBefore(ps, t[a], k)
  {
    var s := SortPositions(ps, |ps|);
    var m := if |ps| < 3 then |ps| else 3;
    PrefixRanksFirst(ps, s, m);
    s[..m]
  }

  /** The top (at most) three prescriptions, largest count first. */
  function TopMedications(ps: seq<Prescription>): (top: seq<Prescription>)
    ensures |top| == if |ps| < 3 then |ps| else 3
    ensures forall a, b :: 0 <= a < b < |top| ==> top[a].count >= top[b].count
    ensures |top| == |TopPositions(ps)| && forall i :: 0 <= i < |top| ==> top[i] == ps[TopPositions(ps)[i]]
  {
    var t := TopPositions(ps);
    seq(|t|, i requires 0 <= i < |t| => ps[t[i]])
  }

  /** `", ".join(f"{drug} ({count})" for each)`. */
  function DrugsText(top: seq<Prescription>): string {
    Join(seq(|top|, i requires 0 <= i < |top| => top[i].drug + " (" + NatToString(top[i].count) + ")"), ", ")
  }

  /** The closing line for a high-volume pharmacy; its leading symbol is written apart so that proofs can read it. */
  const HighVolumeLine := "⭐" + " High-volume pharmacy - perfect fit for Pharmesol!"

  /** The lines of the summary, joined by newlines. */
  method CreatePharmacySummary(pharmacy: Pharmacy) returns (summary: string, ghost parts: seq<string>)
    ensures summary == Join(parts, "\n")
    ensures |parts| == 3 + (if pharmacy.prescriptions != [] then 1 else 0) + (if IsHighVolume(pharmacy) then 1 else 0)
    ensures parts[0] == "📋 **" + pharmacy.name + "**"
    ensures parts[1] == "📍 Located in " + Location(pharmacy)
    ensures parts[2] == "💊 Total Rx Volume: " + NatToString(TotalRxVolume(pharmacy)) + " prescriptions"
    ensures pharmacy.prescriptions != [] ==>
              parts[3] == "🔝 Top medications: " + DrugsText(TopMedications(pharmacy.prescriptions))
    ensures parts[|parts| - 1] == HighVolumeLine <==> IsHighVolume(pharmacy)
  {
    var summaryParts := [
      "📋 **" + pharmacy.name + "**",
      "📍 Located in " + Location(pharmacy),
      "💊 Total Rx Volume: " + NatToString(TotalRxVolume(pharmacy)) + " prescriptions"
    ];
    if pharmacy.prescriptions != [] {
      var topDrugs := TopMedications(pharmacy.prescriptions);
      summaryParts := summaryParts + ["🔝 Top medications: " + DrugsText(topDrugs)];
    }
    if IsHighVolume(pharmacy) {
      summaryParts := summaryParts + [HighVolumeLine];
    } else {
      // The other lines start with a different symbol.
      var last := summaryParts[|summaryParts| - 1];
      if pharmacy.prescriptions != [] {
        assert last[0] == '🔝';
      } else {
        assert last[0] == '💊';
      }
      assert HighVolumeLine[0] == '⭐';
    }
    summary := Join(summaryParts, "\n");
    parts := summaryParts;
  }

  // ---------------------------------------------------------------------------
  // Lead assessment

  /** The volume brackets of a lead's estimate. */
  datatype VolumeBracket = Unknown | Low | Medium | High

  function Bracket(volume: Option<int>): (b: VolumeBracket)
    ensures b == Unknown <==> !VolumePresent(volume)
    ensures b == High <==> VolumePresent(volume) && volume.value >= 100
    ensures b == Medium <==> VolumePresent(volume) && 50 <= volume.value < 100
    ensures b == Low <==> VolumePresent(volume) && volume.value < 50
  {
    if !VolumePresent(volume) then Unknown
    else if volume.value >= 100 then High
    else if volume.value >= 50 then Medium
    else Low
  }

  /** What follows the opening (and, for high and medium, the volume) in each message. */
  const UnknownClosing := "more about your prescription volume to better assist you."
  const HighClosing := " monthly prescriptions, you're exactly the type of high-volume pharmacy that Pharmesol specializes in supporting!"
  const MediumClosing := " monthly prescriptions show good growth potential. Pharmesol can help you scale efficiently."
  const LowClosing := "Pharmesol can help you grow your prescription volume with our comprehensive support system."

  /**
   * The message chosen by the bracket of the lead's estimated volume: the
   * bracket's opening words, the volume for a high or medium estimate, and the
   * bracket's closing text.
   */
  function AssessLeadPotential(lead: NewPharmacyLead): (message: string)
    ensures var b := Bracket(lead.estimatedRxVolume);
            b in {High, Medium} ==>
              var volume := IntToString(lead.estimatedRxVolume.value);
              |Opening(b)| + |volume| <= |message| && message[|Opening(b)|..|Opening(b)| + |volume|] == volume
  {
    match Bracket(lead.estimatedRxVolume)
    case Unknown => Opening(Unknown) + UnknownClosing
    case High => Opening(High) + IntToString(lead.estimatedRxVolume.value) + HighClosing
    case Medium => Opening(Medium) + IntToString(lead.estimatedRxVolume.value) + MediumClosing
    case Low => Opening(Low) + LowClosing
  }

  /** The opening words of the message name the bracket. */
  function Opening(b: VolumeBracket): string {
    match b
    case Unknown => "We'd love to learn "
    case High => "With "
    case Medium => "Your "
    case Low => "Every pharmacy starts somewhere! "
  }

  lemma OpeningsDiffer(b1: VolumeBracket, b2: VolumeBracket)
    requires b1 != b2
    ensures |Opening(b1)| > 1 && |Opening(b2)| > 1 && Opening(b1)[1] != Opening(b2)[1]
  {
  }

  lemma AssessmentOpening(lead: NewPharmacyLead)
    ensures var opening := Opening(Bracket(lead.estimatedRxVolume));
            |opening| <= |AssessLeadPotential(lead)| && AssessLeadPotential(lead)[..|opening|] == opening
  {
  }

  /** Leads in different brackets receive different messages. */
  lemma AssessmentsSeparateBrackets(a: NewPharmacyLead, b: NewPharmacyLead)
    requires Bracket(a.estimatedRxVolume) != Bracket(b.estimatedRxVolume)
    ensures AssessLeadPotential(a) != AssessLeadPotential(b)
  {
    var ma, mb := AssessLeadPotential(a), AssessLeadPotential(b);
    var oa, ob := Opening(Bracket(a.estimatedRxVolume)), Opening(Bracket(b.estimatedRxVolume));
    AssessmentOpening(a);
    AssessmentOpening(b);
    OpeningsDiffer(Bracket(a.estimatedRxVolume), Bracket(b.estimatedRxVolume));
    assert ma[1] == ma[..|oa|][1];
    assert mb[1] == mb[..|ob|][1];
  }

  /** The lead brackets are inclusive at 50 and at 100, unlike the strict pharmacy threshold. */
  lemma BracketBoundaries(p: Pharmacy)
    ensures Bracket(Some(0)) == Unknown && Bracket(None) == Unknown
    ensures Bracket(Some(49)) == Low && Bracket(Some(50)) == Medium
    ensures Bracket(Some(99)) == Medium && Bracket(Some(100)) == High
    ensures TotalRxVolume(p) == 100 ==> !IsHighVolume(p)
  {
  }

  // ---------------------------------------------------------------------------
  // The next question for a lead

  /** The four checks, in the order they are made. */
  datatype MissingInfo = MissingName | MissingContactPerson | MissingLocation | MissingRxVolume

  /** The first check the lead fails, or `None` when it passes all four. */
  function FirstMissing(lead: NewPharmacyLead): (m: Option<MissingInfo>)
    ensures m == None <==> IsComplete(lead) && VolumePresent(lead.estimatedRxVolume)
    ensures m == Some(MissingName) <==> !Present(lead.name)
    ensures m == Some(MissingContactPerson) <==> Present(lead.name) && !Present(lead.contactPerson)
    ensures m == Some(MissingLocation) <==>
              Present(lead.name) && Present(lead.contactPerson) && !(Present(lead.city) && Present(lead.state))
    ensures m == Some(MissingRxVolume) <==> IsComplete(lead) && !VolumePresent(lead.estimatedRxVolume)
  {
    if !Present(lead.name) then Some(MissingName)
    else if !Present(lead.contactPerson) then Some(MissingContactPerson)
    else if !Present(lead.city) || !Present(lead.state) then Some(MissingLocation)
    else if !VolumePresent(lead.estimatedRxVolume) then Some(MissingRxVolume)
    else None
  }

  function Question(m: MissingInfo): string {
    match m
    case MissingName => "What's the name of your pharmacy?"
    case MissingContactPerson => "And what's your name so I can address you properly?"
    case MissingLocation => "Where is your pharmacy located? (City and State)"
    case MissingRxVolume => "Approximately how many prescriptions do you fill per month?"
  }

  /** How far the lead has got through the checks: 4 once it passes them all. */
  function Progress(m: Option<MissingInfo>): nat {
    match m
    case Some(MissingName) => 0
    case Some(MissingContactPerson) => 1
    case Some(MissingLocation) => 2
    case Some(MissingRxVolume) => 3
    case None => 4
  }

  /** The question for the first unmet check only, or `None` when nothing is missing. */
  function GetMissingInfoPrompt(lead: NewPharmacyLead): (question: Option<string>)
    ensures question.None? <==> IsComplete(lead) && VolumePresent(lead.estimatedRxVolume)
    ensures question.Some? ==> FirstMissing(lead).Some? && question.value == Question(FirstMissing(lead).value)
  {
    match FirstMissing(lead)
    case None => None
    case Some(m) => Some(Question(m))
  }

  /** The questions have pairwise different lengths. */
  lemma QuestionLength(m: MissingInfo)
    ensures |Question(m)| == match m
                               case MissingName => 33 case MissingContactPerson => 51
                               case MissingLocation => 48 case MissingRxVolume => 59
  {
  }

  /** Each question names exactly one check. */
  lemma QuestionsAreDistinct(m1: MissingInfo, m2: MissingInfo)
    requires m1 != m2
    ensures Question(m1) != Question(m2)
  {
    QuestionLength(m1);
    QuestionLength(m2);
  }

  /** No question means a complete lead, but a complete lead without a volume is still asked for it. */
  lemma CompletenessAndPromptDisagree(lead: NewPharmacyLead)
    ensures GetMissingInfoPrompt(lead).None? ==> IsComplete(lead)
    ensures IsComplete(lead) && !VolumePresent(lead.estimatedRxVolume) ==>
              GetMissingInfoPrompt(lead) == Some("Approximately how many prescriptions do you fill per month?")
  {
  }

  /** A fresh lead is asked for its name; filled step by step it is asked for each next field. */
  lemma QuestionSequence(phone: string)
    ensures var l0 := EmptyLead(phone);
            var l1 := l0.(name := Some("Test Pharmacy"));
            var l2 := l1.(contactPerson := Some("John Doe"));
            var l3 := l2.(city := Some("Test City"), state := Some("TS"));
            var l4 := l3.(estimatedRxVolume := Some(50));
            && GetMissingInfoPrompt(l0) == Some(Question(MissingName))
            && GetMissingInfoPrompt(l1) == Some(Question(MissingContactPerson))
            && GetMissingInfoPrompt(l2) == Some(Question(MissingLocation))
            && GetMissingInfoPrompt(l3) == Some(Question(MissingRxVolume))
            && IsComplete(l3)
            && GetMissingInfoPrompt(l4) == None
  {
  }

  // ---------------------------------------------------------------------------
  // Conversation set-up

  /** A returning customer when a pharmacy is given, otherwise a lead that knows only the phone. */
  method InitializeConversation(callerPhone: string, pharmacy: Option<Pharmacy>) returns (context: ConversationContext)
    ensures fresh(context) && context.Initialized()
    ensures context.callerPhone == callerPhone && context.messages == []
    ensures context.IsReturningCustomer() <==> pharmacy.Some?
    ensures pharmacy.Some? ==>
              context.pharmacy == pharmacy && context.newLead == None
              && context.conversationStage == "returning_customer_greeting"
    ensures pharmacy.None? ==>
              context.pharmacy == None && context.newLead == Some(EmptyLead(callerPhone))
              && context.conversationStage == "new_lead_greeting"
  {
    context := new ConversationContext(callerPhone);
    if pharmacy.Some? {
      context.pharmacy := pharmacy;
      context.conversationStage := "returning_customer_greeting";
    } else {
      context.newLead := Some(EmptyLead(callerPhone));
      context.conversationStage := "new_lead_greeting";
    }
  }
}
