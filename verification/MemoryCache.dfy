// The in-process cache with expiry. Lazy deletion and the sweep only reclaim space: no caller
// can tell the cache from a map that never forgets and compares deadlines on reading.

module MemoryCache {
  import opened Model

  // --- Numbers as text ---------------------------------------------------------------------

  predicate IsDigit(c: char) {
    '0' <= c <= '9'
  }

  predicate IsSpace(c: char) {
    c == ' ' || '\t' <= c <= '\r' || 28 <= c as int <= 31
  }

  function Trimmed(s: string): string {
    if s == "" then s
    else if IsSpace(s[0]) then Trimmed(s[1..])
    else if IsSpace(s[|s| - 1]) then Trimmed(s[..|s| - 1])
    else s
  }

  /** Digits, with single underscores allowed between them. */
  function Digits(s: string): Option<nat> {
    if s == "" || !IsDigit(s[|s| - 1]) then None
    else
      var d := (s[|s| - 1] - '0') as nat;
      var front := s[..|s| - 1];
      if front == "" then Some(d)
      else
        match Digits(if front[|front| - 1] == '_' then front[..|front| - 1] else front)
        case None => None
        case Some(n) => Some(10 * n + d)
  }

  function Signed(sign: int, magnitude: Option<nat>): Option<int> {
    if magnitude.None? then None else Some(sign * magnitude.value)
  }

  /** A decimal integer literal, optionally signed and surrounded by blanks; anything else is none. */
  function Parsed(text: string): Option<int> {
    var s := Trimmed(text);
    if s == "" then None
    else if s[0] == '-' then Signed(-1, Digits(s[1..]))
    else if s[0] == '+' then Signed(1, Digits(s[1..]))
    else Signed(1, Digits(s))
  }

  function Decimal(n: nat): (s: string)
    ensures s != "" && forall i :: 0 <= i < |s| ==> IsDigit(s[i])
  {
    var last := ['0' + (n % 10) as char];
    if n < 10 then last else Decimal(n / 10) + last
  }

  function Text(n: int): string {
    if n < 0 then "-" + Decimal(-n) else Decimal(n)
  }

  lemma {:induction false} DecimalReadsBack(n: nat)
    ensures Digits(Decimal(n)) == Some(n)
  {
    var s := Decimal(n);
    assert s[|s| - 1] == '0' + (n % 10) as char;
    if n >= 10 {
      DecimalReadsBack(n / 10);
      assert s[..|s| - 1] == Decimal(n / 10);
      assert IsDigit(Decimal(n / 10)[|Decimal(n / 10)| - 1]);
    }
  }

  /** Every integer written as text is read back. */
  lemma TextReadsBack(n: int)
    ensures Parsed(Text(n)) == Some(n)
  {
    hide Digits;
    hide Decimal;
    var digits := Decimal(if n < 0 then -n else n);
    DecimalReadsBack(if n < 0 then -n else n);
    if n < 0 {
      assert ("-" + digits)[1..] == digits;
    }
  }

  /** Digits, with underscores one by one between them and nowhere else. */
  ghost predicate Numeral(s: string) {
    && s != "" && IsDigit(s[0]) && IsDigit(s[|s| - 1])
    && (forall i :: 0 <= i < |s| ==> IsDigit(s[i]) || s[i] == '_')
    && (forall i :: 0 <= i < |s| - 1 ==> IsDigit(s[i]) || IsDigit(s[i + 1]))
  }

  /** A text that ends in a digit, without that and an underscore before it. */
  function Shorter(s: string): string
    requires |s| > 1
  {
    var front := s[..|s| - 1];
    if front[|front| - 1] == '_' then front[..|front| - 1] else front
  }

  lemma NumeralIsShorter(s: string)
    requires |s| > 1 && Numeral(s)
    ensures Numeral(Shorter(s))
  {
    var rest := Shorter(s);
    assert forall i :: 0 <= i < |rest| ==> rest[i] == s[i];
  }

  lemma NumeralIsLonger(s: string)
    requires |s| > 1 && IsDigit(s[|s| - 1]) && Numeral(Shorter(s))
    ensures Numeral(s)
  {
    var rest := Shorter(s);
    var n := |rest|;
    assert forall i :: 0 <= i < n ==> rest[i] == s[i];
    assert IsDigit(s[n - 1]) && (n == |s| - 1 || (n == |s| - 2 && s[n] == '_'));
    forall i | 0 <= i < |s| - 1 ensures IsDigit(s[i]) || IsDigit(s[i + 1]) {
      if i < n - 1 { assert IsDigit(rest[i]) || IsDigit(rest[i + 1]); }
    }
  }

  lemma {:induction false} DigitsReadIff(s: string)
    ensures Digits(s).Some? <==> Numeral(s)
  {
    if s != "" && IsDigit(s[|s| - 1]) && |s| > 1 {
      hide Numeral;
      DigitsReadIff(Shorter(s));
      if Numeral(s) { NumeralIsShorter(s); }
      if Numeral(Shorter(s)) { NumeralIsLonger(s); }
    }
  }

  /** An underscore between digits does not count. */
  lemma {:induction false} UnderscoreDoesNotCount(a: string, b: string)
    requires Numeral(a) && Numeral(b)
    ensures Digits(a + "_" + b) == Digits(a + b)
  {
    assert IsDigit(b[|b| - 1]) && a != "";
    if |b| == 1 {
      ShorterByOne(a, b);
    } else {
      NumeralIsShorter(b);
      ShorterTail(a, b);
      ShorterTail(a + "_", b);
      UnderscoreDoesNotCount(a, Shorter(b));
    }
    hide Numeral;
    hide Shorter;
    hide Digits;
    assert (a + b)[|a + b| - 1] == b[|b| - 1] && (a + "_" + b)[|a + "_" + b| - 1] == b[|b| - 1];
    DigitsFromShorter(a + b);
    DigitsFromShorter(a + "_" + b);
  }

  lemma ShorterByOne(a: string, b: string)
    requires Numeral(a) && |b| == 1
    ensures Shorter(a + b) == a && Shorter(a + "_" + b) == a
  {
    assert (a + "_" + b)[..|a| + 1] == a + "_" && (a + "_")[..|a|] == a && (a + b)[..|a|] == a;
  }

  lemma ShorterTail(a: string, b: string)
    requires |b| > 1
    ensures Shorter(a + b) == a + Shorter(b) && (a + b)[|a + b| - 1] == b[|b| - 1]
  {
  }

  lemma {:induction false} DigitsFromShorter(s: string)
    requires |s| > 1 && IsDigit(s[|s| - 1])
    ensures Digits(s) == match Digits(Shorter(s))
                         case None => None
                         case Some(n) => Some(10 * n + (s[|s| - 1] - '0') as nat)
  {
  }

  lemma {:induction false} TrimmedAtTheEnd(s: string, c: char)
    requires IsSpace(c)
    ensures Trimmed(s + [c]) == Trimmed(s)
    decreases |s|
  {
    if s != "" && IsSpace(s[0]) {
      assert (s + [c])[1..] == s[1..] + [c];
      TrimmedAtTheEnd(s[1..], c);
    } else if s != "" {
      assert (s + [c])[..|s|] == s;
    } else {
      assert s + [c] == [c] && [c][1..] == "";
    }
  }

  /** Blanks around a number and a plus sign before it do not count; a minus sign negates it. */
  lemma SignsAndBlanks(s: string, c: char)
    ensures IsSpace(c) ==> Parsed([c] + s) == Parsed(s) && Parsed(s + [c]) == Parsed(s)
    ensures Numeral(s) ==>
              && Parsed(s).Some? && Parsed(s).value >= 0 && Parsed("+" + s) == Parsed(s)
              && Parsed("-" + s) == Some(-Parsed(s).value)
  {
    if IsSpace(c) {
      assert ([c] + s)[1..] == s;
      TrimmedAtTheEnd(s, c);
    }
    if Numeral(s) {
      DigitsReadIff(s);
      assert ("+" + s)[1..] == s && ("-" + s)[1..] == s;
      assert ("+" + s)[|s|] == s[|s| - 1] && ("-" + s)[|s|] == s[|s| - 1];
    }
  }

  // --- The cache as a value --------------------------------------------------------------------

  datatype Entry = Entry(value: string, expiresAt: Option<real>)

  type Data = map<string, Entry>

  predicate Expired(e: Entry, now: real) {
    e.expiresAt.Some? && now >= e.expiresAt.value
  }

  datatype Cache = Cache(data: Data, interval: real, lastSweep: real)

  /** The readings of the clock are part of an operation: one at the sweep, one at the operation proper. */
  datatype Op =
    | Get(key: string, sweepAt: real, at: real)
    | Set(key: string, value: string, ttl: Option<int>, sweepAt: real, at: real)
    | Delete(key: string)
    | Incr(key: string, at: real)
    | Clear

  datatype Answer = Found(value: Option<string>) | Count(n: int) | Done

  function Swept(c: Cache, now: real): Cache {
    if now - c.lastSweep < c.interval then c
    else c.(lastSweep := now, data := map k | k in c.data && !Expired(c.data[k], now) :: c.data[k])
  }

  function Deadline(ttl: Option<int>, now: real): Option<real> {
    if ttl.None? then None else Some(now + ttl.value as real)
  }

  /** The entry after one more increment; a dead or unreadable one starts over, a dead one without a deadline. */
  function Incremented(data: Data, key: string, now: real): (int, Entry) {
    if key !in data || Expired(data[key], now) then (1, Entry(Text(1), None))
    else
      var n := (match Parsed(data[key].value) case None => 0 case Some(v) => v) + 1;
      (n, Entry(Text(n), data[key].expiresAt))
  }

  function Perform(c: Cache, op: Op): (Cache, Answer) {
    match op
    case Get(key, sweepAt, at) =>
      var s := Swept(c, sweepAt);
      if key !in s.data then (s, Found(None))
      else if Expired(s.data[key], at) then (s.(data := s.data - {key}), Found(None))
      else (s, Found(Some(s.data[key].value)))
    case Set(key, value, ttl, sweepAt, at) =>
      var s := Swept(c, sweepAt);
      (s.(data := s.data[key := Entry(value, Deadline(ttl, at))]), Done)
    case Delete(key) => (c.(data := c.data - {key}), Done)
    case Incr(key, at) =>
      var (n, e) := Incremented(c.data, key, at);
      (c.(data := c.data[key := e]), Count(n))
    case Clear => (c.(data := map[]), Done)
  }

  // --- A map that never forgets ------------------------------------------------------------------

  function Plain(data: Data, op: Op): (Data, Answer) {
    match op
    case Get(key, _, at) =>
      (data, Found(if key in data && !Expired(data[key], at) then Some(data[key].value) else None))
    case Set(key, value, ttl, _, at) => (data[key := Entry(value, Deadline(ttl, at))], Done)
    case Delete(key) => (data - {key}, Done)
    case Incr(key, at) =>
      var (n, e) := Incremented(data, key, at);
      (data[key := e], Count(n))
    case Clear => (map[], Done)
  }

  function CacheAfter(c: Cache, ops: seq<Op>): Cache {
    if ops == [] then c else Perform(CacheAfter(c, ops[..|ops| - 1]), ops[|ops| - 1]).0
  }

  function PlainAfter(data: Data, ops: seq<Op>): Data {
    if ops == [] then data else Plain(PlainAfter(data, ops[..|ops| - 1]), ops[|ops| - 1]).0
  }

  /** The clock once the operation is over, having read `before` last. */
  function ClockAfter(before: real, op: Op): real {
    match op
    case Get(_, _, at) => at
    case Set(_, _, _, _, at) => at
    case Incr(_, at) => at
    case _ => before
  }

  predicate Forward(before: real, op: Op) {
    match op
    case Get(_, sweepAt, at) => before <= sweepAt <= at
    case Set(_, _, _, sweepAt, at) => before <= sweepAt <= at
    case Incr(_, at) => before <= at
    case _ => true
  }

  function Clock(start: real, ops: seq<Op>): real {
    if ops == [] then start else ClockAfter(Clock(start, ops[..|ops| - 1]), ops[|ops| - 1])
  }

  /** The clock never goes back. */
  ghost predicate Monotonic(start: real, ops: seq<Op>) {
    forall i :: 0 <= i < |ops| ==> Forward(Clock(start, ops[..i]), ops[i])
  }

  // --- Refinement -----------------------------------------------------------------------------------

  /** The cache holds nothing else, and everything that has not expired. */
  ghost predicate Covers(data: Data, whole: Data, now: real) {
    && (forall k :: k in data ==> k in whole && whole[k] == data[k])
    && (forall k :: k in whole && !Expired(whole[k], now) ==> k in data)
  }

  lemma OneStepRefines(c: Cache, whole: Data, before: real, op: Op)
    requires Covers(c.data, whole, before) && Forward(before, op)
    ensures Perform(c, op).1 == Plain(whole, op).1
    ensures Covers(Perform(c, op).0.data, Plain(whole, op).0, ClockAfter(before, op))
  {
    hide Text;
    hide Parsed;
    match op {
      case Get(_, sweepAt, _) =>
        hide Swept;
      case Set(_, _, _, sweepAt, _) =>
        hide Swept;
      case _ =>
    }
  }

  lemma {:induction false} RunCovers(c: Cache, start: real, ops: seq<Op>)
    requires Monotonic(start, ops)
    ensures Covers(CacheAfter(c, ops).data, PlainAfter(c.data, ops), Clock(start, ops))
  {
    hide Perform;
    hide Plain;
    hide Covers;
    if ops == [] {
      assert Covers(c.data, c.data, start) by { CoversItself(c.data, start); }
    } else {
      var n := |ops| - 1;
      MonotonicBefore(start, ops);
      RunCovers(c, start, ops[..n]);
      OneStepRefines(CacheAfter(c, ops[..n]), PlainAfter(c.data, ops[..n]), Clock(start, ops[..n]), ops[n]);
    }
  }

  lemma CoversItself(data: Data, now: real)
    ensures Covers(data, data, now)
  {
  }

  lemma MonotonicBefore(start: real, ops: seq<Op>)
    requires ops != [] && Monotonic(start, ops)
    ensures Monotonic(start, ops[..|ops| - 1])
  {
    var front := ops[..|ops| - 1];
    forall i | 0 <= i < |front| ensures Forward(Clock(start, front[..i]), front[i]) {
      assert front[..i] == ops[..i];
    }
  }

  /**
   * Whatever operations came before, at times that never go back, and whatever the sweep interval, the
   * next one is answered as by a map that never drops anything.
   */
  lemma {:induction false} SweepingIsUnobservable(c: Cache, start: real, ops: seq<Op>, op: Op)
    requires Monotonic(start, ops + [op])
    ensures Perform(CacheAfter(c, ops), op).1 == Plain(PlainAfter(c.data, ops), op).1
  {
    assert (ops + [op])[..|ops|] == ops;
    MonotonicBefore(start, ops + [op]);
    RunCovers(c, start, ops);
    OneStepRefines(CacheAfter(c, ops), PlainAfter(c.data, ops), Clock(start, ops), op);
  }

  // --- Increments -------------------------------------------------------------------------------------

  /** Incrementing a live entry keeps its deadline: it dies when it would have died. */
  lemma IncrKeepsTheDeadline(c: Cache, key: string, at: real, later: real, sweepAt: real)
    requires key in c.data && !Expired(c.data[key], at) && at <= sweepAt <= later
    ensures var after := Perform(c, Incr(key, at)).0;
            && key in after.data && after.data[key].expiresAt == c.data[key].expiresAt
            && (Perform(after, Get(key, sweepAt, later)).1.value.None? <==> Expired(c.data[key], later))
  {
    hide Text;
    hide Parsed;
  }

  /** Nothing but increments and reads of this key. */
  predicate LeavesAlone(op: Op, key: string) {
    match op
    case Set(k, _, _, _, _) => k != key
    case Delete(k) => k != key
    case Clear => false
    case _ => true
  }

  function Increments(ops: seq<Op>, key: string): nat {
    if ops == [] then 0
    else Increments(ops[..|ops| - 1], key) + if ops[|ops| - 1].Incr? && ops[|ops| - 1].key == key then 1 else 0
  }

  /** After `n` increments of an absent key, the map that never forgets holds `n` without a deadline. */
  lemma {:induction false} PlainCounts(data: Data, ops: seq<Op>, key: string)
    requires key !in data && forall i :: 0 <= i < |ops| ==> LeavesAlone(ops[i], key)
    ensures var n, after := Increments(ops, key), PlainAfter(data, ops);
            if n == 0 then key !in after else key in after && after[key] == Entry(Text(n), None)
  {
    hide Text;
    hide Parsed;
    if ops != [] {
      var n := |ops| - 1;
      PlainCounts(data, ops[..n], key);
      TextReadsBack(Increments(ops[..n], key));
      assert LeavesAlone(ops[n], key);
    }
  }

  /**
   * The increments of an absent key return 1, 2, 3 and so on, whatever is done to other keys and
   * whatever is swept in between.
   */
  lemma {:induction false} IncrementsCount(c: Cache, start: real, ops: seq<Op>, key: string, at: real)
    requires key !in c.data && Monotonic(start, ops + [Incr(key, at)])
    requires forall i :: 0 <= i < |ops| ==> LeavesAlone(ops[i], key)
    ensures Perform(CacheAfter(c, ops), Incr(key, at)).1 == Count(Increments(ops, key) + 1)
  {
    hide Text;
    hide Parsed;
    SweepingIsUnobservable(c, start, ops, Incr(key, at));
    PlainCounts(c.data, ops, key);
    TextReadsBack(Increments(ops, key));
  }

  // --- Expiry, on answers alone -----------------------------------------------------------------------

  /** Nothing writes the key. */
  predicate OnlyReads(op: Op, key: string) {
    LeavesAlone(op, key) && !(op.Incr? && op.key == key)
  }

  lemma {:induction false} UntouchedEntryStays(data: Data, ops: seq<Op>, key: string)
    requires forall i :: 0 <= i < |ops| ==> OnlyReads(ops[i], key)
    ensures key in PlainAfter(data, ops) <==> key in data
    ensures key in data ==> PlainAfter(data, ops)[key] == data[key]
  {
    hide Text;
    hide Parsed;
    if ops != [] {
      var n := |ops| - 1;
      UntouchedEntryStays(data, ops[..n], key);
      assert OnlyReads(ops[n], key);
    }
  }

  /** Two runs, one after the other. */
  lemma {:induction false} InTwoParts(data: Data, a: seq<Op>, b: seq<Op>)
    ensures PlainAfter(data, a + b) == PlainAfter(PlainAfter(data, a), b)
  {
    if b == [] {
      assert a + b == a;
    } else {
      var n := |b| - 1;
      InTwoParts(data, a, b[..n]);
      assert (a + b)[..|a + b| - 1] == a + b[..n];
    }
  }

  lemma {:induction false} OneOp(data: Data, op: Op)
    ensures PlainAfter(data, [op]) == Plain(data, op).0
  {
    assert [op][..0] == [];
  }

  /**
   * A value set for `ttl` seconds is found, as it was set, by a later reading exactly before these have
   * passed, and a value set without a limit always, whatever is done to other keys and swept in between.
   */
  lemma {:induction false} SetIsFoundIff(
      c: Cache, start: real, before: seq<Op>, key: string, value: string, ttl: Option<int>, s0: real, t: real,
      between: seq<Op>, s1: real, u: real)
    requires Monotonic(start, before + [Set(key, value, ttl, s0, t)] + between + [Get(key, s1, u)])
    requires forall i :: 0 <= i < |between| ==> OnlyReads(between[i], key)
    ensures var so := CacheAfter(c, before + [Set(key, value, ttl, s0, t)] + between);
            Perform(so, Get(key, s1, u)).1
            == Found(if ttl.None? || u < t + ttl.value as real then Some(value) else None)
  {
    var setting := [Set(key, value, ttl, s0, t)];
    var ops := before + setting + between;
    SweepingIsUnobservable(c, start, ops, Get(key, s1, u));
    InTwoParts(c.data, before + setting, between);
    InTwoParts(c.data, before, setting);
    OneOp(PlainAfter(c.data, before), setting[0]);
    UntouchedEntryStays(PlainAfter(c.data, before + setting), between, key);
    hide PlainAfter;
    hide CacheAfter;
    hide Monotonic;
  }

  /** Increments of the key all come before `deadline`, if there is one. */
  predicate InTime(op: Op, key: string, deadline: Option<real>) {
    LeavesAlone(op, key) && (op.Incr? && op.key == key && deadline.Some? ==> op.at < deadline.value)
  }

  lemma {:induction false} IncrementedInTime(data: Data, ops: seq<Op>, key: string, deadline: Option<real>)
    requires key in data && data[key].expiresAt == deadline
    requires forall i :: 0 <= i < |ops| ==> InTime(ops[i], key, deadline)
    ensures key in PlainAfter(data, ops) && PlainAfter(data, ops)[key].expiresAt == deadline
  {
    hide Text;
    hide Parsed;
    if ops != [] {
      var n := |ops| - 1;
      IncrementedInTime(data, ops[..n], key, deadline);
      assert InTime(ops[n], key, deadline);
    }
  }

  /** Increments that come in time change nothing of when the key is last found. */
  lemma {:induction false} IncrementsExpireAsSetIff(
      c: Cache, start: real, before: seq<Op>, key: string, value: string, ttl: int, s0: real, t: real,
      between: seq<Op>, s1: real, u: real)
    requires Monotonic(start, before + [Set(key, value, Some(ttl), s0, t)] + between + [Get(key, s1, u)])
    requires forall i :: 0 <= i < |between| ==> InTime(between[i], key, Some(t + ttl as real))
    ensures var so := CacheAfter(c, before + [Set(key, value, Some(ttl), s0, t)] + between);
            var answer := Perform(so, Get(key, s1, u)).1;
            answer.Found? && (answer.value.Some? <==> u < t + ttl as real)
  {
    var setting := [Set(key, value, Some(ttl), s0, t)];
    var ops := before + setting + between;
    SweepingIsUnobservable(c, start, ops, Get(key, s1, u));
    InTwoParts(c.data, before + setting, between);
    InTwoParts(c.data, before, setting);
    OneOp(PlainAfter(c.data, before), setting[0]);
    IncrementedInTime(PlainAfter(c.data, before + setting), between, key, Some(t + ttl as real));
    hide PlainAfter;
    hide CacheAfter;
    hide Monotonic;
  }

  /** What an increment answers after a value was set: one more while that is live and a number, else one. */
  lemma {:induction false} IncrementAfterSet(
      c: Cache, start: real, before: seq<Op>, key: string, value: string, ttl: Option<int>, s0: real, t: real,
      between: seq<Op>, u: real)
    requires Monotonic(start, before + [Set(key, value, ttl, s0, t)] + between + [Incr(key, u)])
    requires forall i :: 0 <= i < |between| ==> OnlyReads(between[i], key)
    ensures var so := CacheAfter(c, before + [Set(key, value, ttl, s0, t)] + between);
            var live := ttl.None? || u < t + ttl.value as real;
            && (Parsed(value).None? || !live ==> Perform(so, Incr(key, u)).1 == Count(1))
            && (live ==> forall n :: value == Text(n) ==> Perform(so, Incr(key, u)).1 == Count(n + 1))
  {
    var setting := [Set(key, value, ttl, s0, t)];
    var ops := before + setting + between;
    SweepingIsUnobservable(c, start, ops, Incr(key, u));
    InTwoParts(c.data, before + setting, between);
    InTwoParts(c.data, before, setting);
    OneOp(PlainAfter(c.data, before), setting[0]);
    UntouchedEntryStays(PlainAfter(c.data, before + setting), between, key);
    forall n | value == Text(n) ensures Parsed(value) == Some(n) { TextReadsBack(n); }
    hide PlainAfter;
    hide CacheAfter;
    hide Monotonic;
    hide Text;
    hide Parsed;
  }

  /** After a deletion, or a clear, the key is not found until it is written again. */
  lemma {:induction false} DeletedIsNotFound(
      c: Cache, start: real, before: seq<Op>, key: string, gone: Op, between: seq<Op>, s1: real, u: real)
    requires gone == Delete(key) || gone == Clear
    requires Monotonic(start, before + [gone] + between + [Get(key, s1, u)])
    requires forall i :: 0 <= i < |between| ==> OnlyReads(between[i], key)
    ensures Perform(CacheAfter(c, before + [gone] + between), Get(key, s1, u)).1 == Found(None)
  {
    SweepingIsUnobservable(c, start, before + [gone] + between, Get(key, s1, u));
    InTwoParts(c.data, before + [gone], between);
    InTwoParts(c.data, before, [gone]);
    OneOp(PlainAfter(c.data, before), gone);
    UntouchedEntryStays(PlainAfter(c.data, before + [gone]), between, key);
    hide PlainAfter;
    hide CacheAfter;
    hide Monotonic;
  }

  // --- Space ------------------------------------------------------------------------------------------

  /** Every entry held outlives the last sweep. */
  ghost predicate OutlivesSweep(c: Cache) {
    forall k :: k in c.data && c.data[k].expiresAt.Some? ==> c.data[k].expiresAt.value > c.lastSweep
  }

  predicate PositiveTtl(op: Op) {
    op.Set? && op.ttl.Some? ==> op.ttl.value > 0
  }

  lemma OneStepOutlives(c: Cache, before: real, op: Op)
    requires OutlivesSweep(c) && c.lastSweep <= before && Forward(before, op) && PositiveTtl(op)
    ensures var d := Perform(c, op).0;
            && OutlivesSweep(d) && d.lastSweep <= ClockAfter(before, op) && d.interval == c.interval
            && (op.Get? || op.Set? ==> op.sweepAt - d.lastSweep < c.interval || d.lastSweep == op.sweepAt)
  {
    hide Text;
    hide Parsed;
  }

  lemma {:induction false} RunOutlives(c: Cache, start: real, ops: seq<Op>)
    requires OutlivesSweep(c) && c.lastSweep <= start && Monotonic(start, ops)
    requires forall i :: 0 <= i < |ops| ==> PositiveTtl(ops[i])
    ensures var d := CacheAfter(c, ops);
            OutlivesSweep(d) && d.lastSweep <= Clock(start, ops) && d.interval == c.interval
  {
    if ops != [] {
      var n := |ops| - 1;
      MonotonicBefore(start, ops);
      RunOutlives(c, start, ops[..n]);
      OneStepOutlives(CacheAfter(c, ops[..n]), Clock(start, ops[..n]), ops[n]);
    }
  }

  /**
   * Dead entries do not pile up: along every run, what a reading or a write leaves in the cache expired
   * less than a sweep interval ago, if at all, and what a reading does not find is not held any more.
   */
  lemma {:induction false} DeadEntriesAreGone(c: Cache, start: real, ops: seq<Op>, op: Op)
    requires OutlivesSweep(c) && c.lastSweep <= start && c.interval >= 0.0 && Monotonic(start, ops + [op])
    requires forall i :: 0 <= i < |ops| ==> PositiveTtl(ops[i])
    requires (op.Get? || op.Set?) && PositiveTtl(op)
    ensures var (d, answer) := Perform(CacheAfter(c, ops), op);
            && (forall k :: k in d.data && d.data[k].expiresAt.Some? ==>
                  d.data[k].expiresAt.value > op.sweepAt - c.interval)
            && (answer == Found(None) ==> op.key !in d.data)
  {
    hide Swept;
    hide Clock;
    assert (ops + [op])[..|ops|] == ops;
    MonotonicBefore(start, ops + [op]);
    RunOutlives(c, start, ops);
    OneStepOutlives(CacheAfter(c, ops), Clock(start, ops), op);
  }

  /** How many of the operations swept. */
  function Sweeps(c: Cache, ops: seq<Op>): nat {
    if ops == [] then 0
    else
      var front := ops[..|ops| - 1];
      Sweeps(c, front) + if CacheAfter(c, ops).lastSweep != CacheAfter(c, front).lastSweep then 1 else 0
  }

  lemma OneSweep(c: Cache, op: Op)
    ensures var d := Perform(c, op).0;
            d.interval == c.interval && (d.lastSweep != c.lastSweep ==> d.lastSweep - c.lastSweep >= c.interval)
  {
    hide Text;
    hide Parsed;
  }

  /** Sweeps are an interval apart: there are no more of them than intervals have passed. */
  lemma {:induction false} SweepsAreAnIntervalApart(c: Cache, start: real, ops: seq<Op>)
    requires c.lastSweep <= start && Monotonic(start, ops)
    ensures Sweeps(c, ops) as real * c.interval <= Clock(start, ops) - c.lastSweep
  {
    LastSweepIsPast(c, start, ops);
    SweepsAddUp(c, ops);
  }

  lemma {:induction false} LastSweepIsPast(c: Cache, start: real, ops: seq<Op>)
    requires c.lastSweep <= start && Monotonic(start, ops)
    ensures CacheAfter(c, ops).lastSweep <= Clock(start, ops)
  {
    hide Text;
    hide Parsed;
    if ops != [] {
      MonotonicBefore(start, ops);
      LastSweepIsPast(c, start, ops[..|ops| - 1]);
    }
  }

  lemma {:induction false} SweepsAddUp(c: Cache, ops: seq<Op>)
    ensures CacheAfter(c, ops).interval == c.interval
    ensures Sweeps(c, ops) as real * c.interval <= CacheAfter(c, ops).lastSweep - c.lastSweep
  {
    hide Perform;
    if ops != [] {
      var n := |ops| - 1;
      SweepsAddUp(c, ops[..n]);
      OneSweep(CacheAfter(c, ops[..n]), ops[n]);
    }
  }

  // --- The cache object -----------------------------------------------------------------------------------

  class TtlCache {
    var data: Data
    var lastSweep: real
    const interval: real

    constructor (interval: real, now: real)
      ensures View() == Cache(map[], interval, now)
    {
      data, lastSweep, this.interval := map[], now, interval;
    }

    function View(): Cache
      reads this
    {
      Cache(data, interval, lastSweep)
    }

    /** Expired keys are collected first, then deleted one by one. */
    method MaybeSweep(now: real)
      modifies this
      ensures View() == Swept(old(View()), now)
    {
      if now - lastSweep < interval { return; }
      lastSweep := now;
      var expired := set k | k in data && Expired(data[k], now);
      var todo := expired;
      while todo != {}
        invariant todo <= expired && lastSweep == now
        invariant data == old(data) - (expired - todo)
        decreases todo
      {
        var k :| k in todo;
        todo := todo - {k};
        data := data - {k};
      }
      assert data == map k | k in old(data) && !Expired(old(data)[k], now) :: old(data)[k];
    }

    method Lookup(key: string, sweepAt: real, at: real) returns (value: Option<string>)
      modifies this
      ensures (View(), Found(value)) == Perform(old(View()), Get(key, sweepAt, at))
    {
      MaybeSweep(sweepAt);
      if key !in data { return None; }
      if Expired(data[key], at) {
        data := data - {key};
        return None;
      }
      value := Some(data[key].value);
    }

    method Store(key: string, value: string, ttl: Option<int>, sweepAt: real, at: real)
      modifies this
      ensures View() == Perform(old(View()), Set(key, value, ttl, sweepAt, at)).0
    {
      MaybeSweep(sweepAt);
      var expiresAt := if ttl.Some? then Some(at + ttl.value as real) else None;
      data := data[key := Entry(value, expiresAt)];
    }

    method Remove(key: string)
      modifies this`data
      ensures View() == Perform(old(View()), Delete(key)).0
    {
      data := data - {key};
    }

    method Increment(key: string, at: real) returns (n: int)
      modifies this`data
      ensures (View(), Count(n)) == Perform(old(View()), Incr(key, at))
    {
      var current, expiresAt := 0, None;
      if key in data && !Expired(data[key], at) {
        var parsed := Parsed(data[key].value);
        current := if parsed.Some? then parsed.value else 0;
        expiresAt := data[key].expiresAt;
      }
      n := current + 1;
      data := data[key := Entry(Text(n), expiresAt)];
    }

    method Reset()
      modifies this`data
      ensures View() == Perform(old(View()), Clear).0
    {
      data := map[];
    }
  }
}
