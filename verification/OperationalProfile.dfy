/** The operational profile's rule engine: which updates a learned bound takes,
    and where learning ends up.

    Most fields hold a number. One holds a mask of request options, kept here
    as the set of its bits; a stored word is positive, so a mask has some bit
    and never the sign bit.
 */
module OperationalProfile {
  import opened Policy

  const LIMIT := 0x8000_0000_0000_0000
  const SIGN_BIT := 63

  datatype Field =
    | MaxRequestBytes
    | MaxResponseBytes
    | RequestsPerMinute
    | CooldownMillis
    | ConcurrencyCeiling
    | TimeoutMillis
    | UnsupportedOptions

  datatype Direction = Lower | Higher | Bitmask | NoAutomatic

  function SafetyDirection(field: Field): Direction {
    match field
    case CooldownMillis => Higher
    case UnsupportedOptions => Bitmask
    case TimeoutMillis => NoAutomatic
    case _ => Lower
  }

  datatype Word = Number(n: int) | Mask(bits: set<nat>)

  // The representation a field uses.
  predicate Suits(field: Field, word: Word) {
    word.Mask? <==> SafetyDirection(field).Bitmask?
  }

  predicate Positive(word: Word) {
    match word
    case Number(n) => 0 < n < LIMIT
    case Mask(bits) => bits != {} && forall b :: b in bits ==> b < SIGN_BIT
  }

  datatype Provenance = Unknown | Configured | Observed | Authoritative

  datatype EvidenceRef = Absent | Evidence(id: string) | Execution(id: string) | Verification(id: string) | TaskRef(id: string)

  predicate Digits(text: string) {
    forall i :: 0 <= i < |text| ==> '0' <= text[i] <= '9'
  }

  // Six digits at least, more only without a leading zero.
  predicate Counter(text: string) {
    |text| >= 6 && Digits(text) && (|text| > 6 ==> text[0] != '0')
  }

  predicate Labelled(text: string, prefix: string) {
    prefix <= text && Counter(text[|prefix|..])
  }

  predicate EvidenceValid(ref: EvidenceRef) {
    match ref
    case Absent => false
    case Evidence(id) => Labelled(id, "obs-")
    case Execution(id) => Labelled(id, "exec-")
    case Verification(id) => Labelled(id, "verif-")
    case TaskRef(id) => "cli-" <= id && 10 <= |id| - 4 <= 19 && Digits(id[4..]) && id[4] != '0'
  }

  datatype Value = Value(word: Word, provenance: Provenance, evidence: EvidenceRef, updatedAt: string)

  predicate Known(v: Value) {
    !v.provenance.Unknown? && Positive(v.word)
  }

  datatype Update = Update(word: Word, provenance: Provenance, evidence: EvidenceRef)

  datatype Error = Invalid | NoAutomaticDirection | NotConservative | ReplayUndo

  datatype Result = Accepted(value: Value) | Refused(error: Error)

  predicate UpdateValid(u: Update) {
    && !u.provenance.Unknown? && Positive(u.word)
    && (u.provenance.Configured? ==> u.evidence.Absent?)
    && (!u.provenance.Configured? ==> EvidenceValid(u.evidence))
  }

  // Whether `candidate` may replace `current` in the field's safe direction.
  predicate MoreConservative(field: Field, current: Word, candidate: Word)
    requires Suits(field, current) && Suits(field, candidate)
  {
    match SafetyDirection(field)
    case Higher => candidate.n > current.n
    case Bitmask => current.bits <= candidate.bits
    case _ => candidate.n < current.n
  }

  predicate Held(field: Field, current: Option<Value>) {
    current.Some? ==> Suits(field, current.value.word)
  }

  function ApplyFieldValue(field: Field, current: Option<Value>, u: Update, now: string): (r: Result)
    requires Held(field, current) && Suits(field, u.word)
    ensures r.Accepted? ==> Suits(field, r.value.word) && Known(r.value)
  {
    if !UpdateValid(u) then Refused(Invalid)
    else if u.provenance.Observed? && SafetyDirection(field).NoAutomatic? then Refused(NoAutomaticDirection)
    else
      var proposed := Value(u.word, u.provenance, u.evidence, now);
      if current.None? || !Known(current.value) then Accepted(proposed)
      else
        var held := current.value;
        if u.provenance.Observed? then
          if field.UnsupportedOptions? then
            var added := u.word.bits - held.word.bits;
            if added == {} then Refused(NotConservative) else Accepted(proposed.(word := Mask(held.word.bits + added)))
          else if !MoreConservative(field, held.word, u.word) then Refused(NotConservative)
          else Accepted(proposed)
        else if u.provenance.Configured? && (held.provenance.Observed? || held.provenance.Authoritative?)
                && !MoreConservative(field, held.word, u.word) then Refused(ReplayUndo)
        else Accepted(proposed)
  }

  predicate AllSuit(field: Field, updates: seq<Update>) {
    forall u :: u in updates ==> Suits(field, u.word)
  }

  function After(field: Field, current: Option<Value>, u: Update, now: string): (next: Option<Value>)
    requires Held(field, current) && Suits(field, u.word)
    ensures Held(field, next)
  {
    var result := ApplyFieldValue(field, current, u, now);
    if result.Accepted? then Some(result.value) else current
  }

  // Applying updates in turn; a refused one changes nothing.
  function Learn(field: Field, current: Option<Value>, updates: seq<Update>, now: string): (last: Option<Value>)
    requires Held(field, current) && AllSuit(field, updates)
    ensures Held(field, last)
    decreases |updates|
  {
    if updates == [] then current else Learn(field, After(field, current, updates[0], now), updates[1..], now)
  }

  // ----- The safe direction is an order with joins -----

  // `b` is at least as conservative as `a`.
  predicate AtMost(field: Field, a: Word, b: Word)
    requires Suits(field, a) && Suits(field, b)
  {
    match SafetyDirection(field)
    case Higher => a.n <= b.n
    case Bitmask => a.bits <= b.bits
    case _ => b.n <= a.n
  }

  // The loosest bound that covers both.
  function Join(field: Field, a: Word, b: Word): (j: Word)
    requires Suits(field, a) && Suits(field, b)
    ensures Suits(field, j)
    ensures AtMost(field, a, j) && AtMost(field, b, j)
    ensures forall bound :: Suits(field, bound) && AtMost(field, a, bound) && AtMost(field, b, bound) ==> AtMost(field, j, bound)
  {
    match SafetyDirection(field)
    case Higher => if a.n < b.n then b else a
    case Bitmask => Mask(a.bits + b.bits)
    case _ => if b.n < a.n then b else a
  }

  predicate ObservedOnly(updates: seq<Update>) {
    forall u :: u in updates ==> u.provenance.Observed? && UpdateValid(u)
  }

  // One observation moves a known value to the join, accepted or not.
  lemma ObservingJoins(field: Field, current: Value, u: Update, now: string)
    requires Suits(field, current.word) && Suits(field, u.word) && Known(current)
    requires u.provenance.Observed? && UpdateValid(u) && !SafetyDirection(field).NoAutomatic?
    ensures var next := After(field, Some(current), u, now);
            next.Some? && Known(next.value) && next.value.word == Join(field, current.word, u.word)
  {
    if field.UnsupportedOptions? {
      assert current.word.bits + (u.word.bits - current.word.bits) == current.word.bits + u.word.bits;
    }
  }

  /** Where learning ends up, in terms of the order alone: above every
      observation and above the value held before, and below every other bound
      that is. */
  ghost predicate LeastBound(field: Field, start: Word, updates: seq<Update>, word: Word)
    requires Suits(field, start) && AllSuit(field, updates) && Suits(field, word)
  {
    && AtMost(field, start, word)
    && (forall u :: u in updates ==> AtMost(field, u.word, word))
    && (forall bound :: Suits(field, bound) && AtMost(field, start, bound) && (forall u :: u in updates ==> AtMost(field, u.word, bound))
                        ==> AtMost(field, word, bound))
  }

  lemma {:induction false} LearningIsLeast(field: Field, current: Value, updates: seq<Update>, now: string)
    requires Suits(field, current.word) && Known(current) && AllSuit(field, updates)
    requires ObservedOnly(updates) && !SafetyDirection(field).NoAutomatic?
    ensures var last := Learn(field, Some(current), updates, now);
            last.Some? && Known(last.value) && LeastBound(field, current.word, updates, last.value.word)
    decreases |updates|
  {
    if updates != [] {
      ObservingJoins(field, current, updates[0], now);
      var next := After(field, Some(current), updates[0], now).value;
      LearningIsLeast(field, next, updates[1..], now);
      JoinedBound(field, current.word, next.word, updates, Learn(field, Some(current), updates, now).value.word);
    }
  }

  lemma JoinedBound(field: Field, start: Word, next: Word, updates: seq<Update>, word: Word)
    requires Suits(field, start) && Suits(field, next) && AllSuit(field, updates) && Suits(field, word) && updates != []
    requires next == Join(field, start, updates[0].word) && LeastBound(field, next, updates[1..], word)
    ensures LeastBound(field, start, updates, word)
  {
    assert updates == [updates[0]] + updates[1..];
    OrderIsTransitive(field, start, next, word);
    OrderIsTransitive(field, updates[0].word, next, word);
  }

  lemma OrderIsTransitive(field: Field, a: Word, b: Word, d: Word)
    requires Suits(field, a) && Suits(field, b) && Suits(field, d)
    ensures AtMost(field, a, b) && AtMost(field, b, d) ==> AtMost(field, a, d)
    ensures AtMost(field, a, b) && AtMost(field, b, a) ==> a == b
  {
  }

  // The same without a value to start from.
  ghost predicate LeastOf(field: Field, updates: seq<Update>, word: Word)
    requires AllSuit(field, updates) && Suits(field, word)
  {
    && (forall u :: u in updates ==> AtMost(field, u.word, word))
    && (forall bound :: Suits(field, bound) && (forall u :: u in updates ==> AtMost(field, u.word, bound)) ==> AtMost(field, word, bound))
  }

  lemma LearningFromNothing(field: Field, updates: seq<Update>, now: string)
    requires AllSuit(field, updates) && updates != [] && ObservedOnly(updates) && !SafetyDirection(field).NoAutomatic?
    ensures var last := Learn(field, None, updates, now); last.Some? && LeastOf(field, updates, last.value.word)
  {
    assert updates == [updates[0]] + updates[1..];
    var first := After(field, None, updates[0], now).value;
    LearningIsLeast(field, first, updates[1..], now);
  }

  lemma LeastIsUnique(field: Field, updates: seq<Update>, shuffled: seq<Update>, a: Word, b: Word)
    requires AllSuit(field, updates) && AllSuit(field, shuffled) && Suits(field, a) && Suits(field, b)
    requires forall u :: u in updates <==> u in shuffled
    requires LeastOf(field, updates, a) && LeastOf(field, shuffled, b)
    ensures a == b
  {
    OrderIsTransitive(field, a, b, a);
  }

  /** Observations commute: on every field with a safe direction, the same
      observations in any order, starting from any value or from none, end at
      the same bound: the smallest, the largest or the union. */
  lemma LearningIgnoresOrder(field: Field, start: Option<Value>, updates: seq<Update>, shuffled: seq<Update>, now: string)
    requires Held(field, start) && (start.Some? ==> Known(start.value)) && AllSuit(field, updates)
    requires ObservedOnly(updates) && multiset(updates) == multiset(shuffled) && !SafetyDirection(field).NoAutomatic?
    ensures AllSuit(field, shuffled)
    ensures var (a, b) := (Learn(field, start, updates, now), Learn(field, start, shuffled, now));
            a.Some? == b.Some? && (a.Some? ==> a.value.word == b.value.word)
  {
    assert forall u :: u in updates <==> u in multiset(updates);
    assert forall u :: u in shuffled <==> u in multiset(shuffled);
    assert |updates| == |multiset(updates)| && |shuffled| == |multiset(shuffled)|;
    if start.Some? {
      LearningIsLeast(field, start.value, updates, now);
      LearningIsLeast(field, start.value, shuffled, now);
      var a := Learn(field, start, updates, now).value.word;
      var b := Learn(field, start, shuffled, now).value.word;
      OrderIsTransitive(field, a, b, a);
    } else if updates != [] {
      LearningFromNothing(field, updates, now);
      LearningFromNothing(field, shuffled, now);
      LeastIsUnique(field, updates, shuffled, Learn(field, start, updates, now).value.word, Learn(field, start, shuffled, now).value.word);
    }
  }

  // ----- Replaying the configuration -----

  // Observations, and replays of one configured value.
  predicate Replays(updates: seq<Update>, configured: Word) {
    forall u :: u in updates ==> u.provenance.Observed? || (u.provenance.Configured? && u.word == configured)
  }

  // A value held by configuration is the one being replayed.
  predicate Consistent(current: Option<Value>, configured: Word) {
    current.Some? && Known(current.value) && current.value.provenance.Configured? ==> current.value.word == configured
  }

  lemma ReplayTightens(field: Field, current: Value, u: Update, configured: Word, now: string)
    requires Suits(field, current.word) && Known(current) && Suits(field, u.word) && Suits(field, configured)
    requires Consistent(Some(current), configured) && (u.provenance.Observed? || (u.provenance.Configured? && u.word == configured))
    ensures var next := After(field, Some(current), u, now);
            && next.Some? && Known(next.value) && AtMost(field, current.word, next.value.word) && Consistent(next, configured)
  {
  }

  /** Replaying one configured value among any observations never loosens the
      bound, whether or not the field has a safe direction for observations. */
  lemma {:induction false} ReplaysOnlyTighten(field: Field, current: Value, updates: seq<Update>, configured: Word, now: string)
    requires Suits(field, current.word) && Known(current) && AllSuit(field, updates) && Suits(field, configured)
    requires Replays(updates, configured) && Consistent(Some(current), configured)
    ensures var last := Learn(field, Some(current), updates, now);
            last.Some? && Known(last.value) && AtMost(field, current.word, last.value.word)
    decreases |updates|
  {
    if updates == [] {
      OrderIsReflexive(field, current.word);
    } else {
      ReplayTightens(field, current, updates[0], configured, now);
      var next := After(field, Some(current), updates[0], now).value;
      ReplaysOnlyTighten(field, next, updates[1..], configured, now);
      OrderIsTransitive(field, current.word, next.word, Learn(field, Some(current), updates, now).value.word);
    }
  }

  lemma OrderIsReflexive(field: Field, a: Word)
    requires Suits(field, a)
    ensures AtMost(field, a, a)
  {
  }

  // ----- What loosens a bound -----

  // The updates that loosen: an authoritative one, or a configured one over a
  // configured value, whose word does not cover the value held.
  predicate Loosens(field: Field, current: Value, u: Update)
    requires Suits(field, current.word) && Suits(field, u.word)
  {
    && UpdateValid(u) && !AtMost(field, current.word, u.word)
    && (u.provenance.Authoritative? || (u.provenance.Configured? && current.provenance.Configured?))
  }

  /** An update loosens a known bound if and only if it is valid, does not cover
      the value held, and is authoritative or a configuration over a
      configuration. */
  lemma LoosensExactly(field: Field, current: Value, u: Update, now: string)
    requires Suits(field, current.word) && Known(current) && Suits(field, u.word)
    ensures var next := After(field, Some(current), u, now);
            next.Some? && Known(next.value) && (!AtMost(field, current.word, next.value.word) <==> Loosens(field, current, u))
  {
    OrderIsReflexive(field, current.word);
  }

  // Every update of the list leaves the bound at least as conservative as it
  // found it.
  predicate OnlyTightens(field: Field, current: Value, updates: seq<Update>, now: string)
    requires Suits(field, current.word) && Known(current) && AllSuit(field, updates)
    decreases |updates|
  {
    updates == [] ||
    var next := After(field, Some(current), updates[0], now);
    next.Some? && Known(next.value) && AtMost(field, current.word, next.value.word) && OnlyTightens(field, next.value, updates[1..], now)
  }

  // No update of the list is one that loosens what it finds.
  predicate NoneLoosens(field: Field, current: Value, updates: seq<Update>, now: string)
    requires Suits(field, current.word) && Known(current) && AllSuit(field, updates)
    decreases |updates|
  {
    updates == [] ||
    var next := After(field, Some(current), updates[0], now);
    !Loosens(field, current, updates[0]) && (next.Some? && Known(next.value) ==> NoneLoosens(field, next.value, updates[1..], now))
  }

  /** Over any list of updates of any provenance: the bound only ever tightens
      if and only if no update loosens, and then it ends at least as
      conservative as it started. */
  lemma {:induction false} LearningTightensExactly(field: Field, current: Value, updates: seq<Update>, now: string)
    requires Suits(field, current.word) && Known(current) && AllSuit(field, updates)
    ensures OnlyTightens(field, current, updates, now) <==> NoneLoosens(field, current, updates, now)
    ensures var last := Learn(field, Some(current), updates, now);
            last.Some? && Known(last.value) && (OnlyTightens(field, current, updates, now) ==> AtMost(field, current.word, last.value.word))
    decreases |updates|
  {
    hide AtMost, Loosens, ApplyFieldValue;
    if updates == [] {
      OrderIsReflexive(field, current.word);
    } else {
      LoosensExactly(field, current, updates[0], now);
      var next := After(field, Some(current), updates[0], now).value;
      LearningTightensExactly(field, next, updates[1..], now);
      OrderIsTransitive(field, current.word, next.word, Learn(field, Some(current), updates, now).value.word);
    }
  }

  /** One configured value is the limit: a first configuration that tightens an
      observed bound lets a second one loosen it past the observation. */
  lemma TwoConfigurationsCanLoosen(now: string)
    ensures var seen := Value(Number(10), Observed, Evidence("obs-000001"), now);
            var updates := [Update(Number(5), Configured, Absent), Update(Number(20), Configured, Absent)];
            var last := Learn(MaxRequestBytes, Some(seen), updates, now);
            last.Some? && !AtMost(MaxRequestBytes, seen.word, last.value.word)
  {
    var seen := Value(Number(10), Observed, Evidence("obs-000001"), now);
    var updates := [Update(Number(5), Configured, Absent), Update(Number(20), Configured, Absent)];
    var first := After(MaxRequestBytes, Some(seen), updates[0], now);
    assert updates[1..] == [updates[1]];
    assert Learn(MaxRequestBytes, first, [updates[1]], now) == Learn(MaxRequestBytes, After(MaxRequestBytes, first, updates[1], now), [], now);
  }

  // ----- The profile -----

  datatype Profile = Profile(values: map<Field, Value>, updatedAt: string)

  predicate ProfileSuits(p: Profile) {
    forall field :: field in p.values ==> Suits(field, p.values[field].word)
  }

  function Lookup(p: Profile, field: Field): Option<Value> {
    if field in p.values then Some(p.values[field]) else None
  }

  /** Applying an update gives a new profile that differs from the old one in
      the updated field alone, or none when the rules refuse it. `later` says
      whether the clock reads later than the profile's own stamp. */
  function Apply(p: Profile, field: Field, u: Update, now: string, later: bool): (next: Option<Profile>)
    requires ProfileSuits(p) && Suits(field, u.word)
    ensures next.Some? <==> ApplyFieldValue(field, Lookup(p, field), u, now).Accepted?
    ensures next.Some? ==> ProfileSuits(next.value) && Lookup(next.value, field) == After(field, Lookup(p, field), u, now)
    ensures next.Some? ==> forall other :: other != field ==> Lookup(next.value, other) == Lookup(p, other)
  {
    match ApplyFieldValue(field, Lookup(p, field), u, now)
    case Refused(_) => None
    case Accepted(value) => Some(Profile(p.values[field := value], if later then now else p.updatedAt))
  }
}
