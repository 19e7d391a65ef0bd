/** The exchanges, queues and bindings that `setup` declares, and where messages go in them. */
module Topology {
  import opened Domain
  import P = Pipeline

  // ---------------------------------------------------------------- queue names

  function Digit(d: int): char
    requires 0 <= d < 10
  {
    ['0', '1', '2', '3', '4', '5', '6', '7', '8', '9'][d]
  }

  function DecimalNat(n: nat): string {
    if n < 10 then [Digit(n)] else DecimalNat(n / 10) + [Digit(n % 10)]
  }

  /** `%d` of an integer. */
  function Decimal(n: int): string {
    if n < 0 then "-" + DecimalNat(-n) else DecimalNat(n)
  }

  /** What a decimal numeral stands for. */
  function ValueOfNat(s: string): int {
    if s == "" then 0 else 10 * ValueOfNat(s[..|s| - 1]) + (s[|s| - 1] as int - '0' as int)
  }

  function ValueOf(s: string): int {
    if s != "" && s[0] == '-' then -ValueOfNat(s[1..]) else ValueOfNat(s)
  }

  lemma ValueSnoc(s: string, d: int)
    requires 0 <= d < 10
    ensures ValueOfNat(s + [Digit(d)]) == 10 * ValueOfNat(s) + d
  {
    assert (s + [Digit(d)])[..|s|] == s;
    assert Digit(d) as int - '0' as int == d;
  }

  lemma {:induction false} DecimalNatValue(n: nat)
    ensures ValueOfNat(DecimalNat(n)) == n
    ensures |DecimalNat(n)| >= 1 && DecimalNat(n)[0] != '-'
  {
    if n < 10 {
      ValueSnoc("", n);
      assert "" + [Digit(n)] == [Digit(n)];
    } else {
      DecimalNatValue(n / 10);
      ValueSnoc(DecimalNat(n / 10), n % 10);
    }
  }

  lemma SignedValue(digits: string, n: nat)
    requires ValueOfNat(digits) == n && digits != "" && digits[0] != '-'
    ensures ValueOf(digits) == n && ValueOf("-" + digits) + n == 0
  {
    assert ("-" + digits)[1..] == digits;
  }

  /** A printed integer reads back, so different integers are printed differently. */
  lemma DecimalValue(n: int)
    ensures ValueOf(Decimal(n)) == n
  {
    var m: nat := if n < 0 then -n else n;
    DecimalNatValue(m);
    SignedValue(DecimalNat(m), m);
  }

  function RetryQueueName(queue: string, level: int): string {
    queue + "_retry_" + Decimal(level)
  }

  /** A retry queue has the name of the main queue, `_retry_` and its level. */
  lemma RetryNameMeans(queue: string, level: int)
    ensures var name := RetryQueueName(queue, level);
            && |name| >= |queue| + 7 && queue <= name && name[|queue|..|queue| + 7] == "_retry_"
            && ValueOf(name[|queue| + 7..]) == level
  {
    DecimalValue(level);
    assert RetryQueueName(queue, level)[|queue| + 7..] == Decimal(level);
  }

  /** Retry queues of different levels have different names, and none has the name of the main queue. */
  lemma RetryNames(queue: string, a: int, b: int)
    ensures RetryQueueName(queue, a) == RetryQueueName(queue, b) <==> a == b
    ensures RetryQueueName(queue, a) != queue
  {
    RetryNameMeans(queue, a);
    RetryNameMeans(queue, b);
  }

  // ---------------------------------------------------------------- declarations

  datatype Kind = Direct | Fanout

  datatype Arguments = Arguments(deadExchange: Option<string>, deadKey: Option<string>, ttl: Option<int>)

  const Plain := Arguments(None, None, None)

  datatype Binding = Binding(exchange: string, key: string, queue: string)

  datatype State = State(exchanges: map<string, Kind>, queues: map<string, Arguments>, bindings: set<Binding>)

  const Bare := State(map[], map[], {})

  datatype Declaration =
    | ExchangeDeclare(name: string, kind: Kind)
    | QueueDeclare(queue: string, args: Arguments)
    | QueueBind(binding: Binding)

  /** Declaring again with the same properties changes nothing; with others it is an error, as is binding what is missing. */
  predicate Accepted(s: State, d: Declaration) {
    match d
    case ExchangeDeclare(name, kind) => name in s.exchanges ==> s.exchanges[name] == kind
    case QueueDeclare(queue, args) => queue in s.queues ==> s.queues[queue] == args
    case QueueBind(b) => b.exchange in s.exchanges && b.queue in s.queues
  }

  function Declare(s: State, d: Declaration): State {
    if !Accepted(s, d) then s else
    match d
    case ExchangeDeclare(name, kind) => s.(exchanges := s.exchanges[name := kind])
    case QueueDeclare(queue, args) => s.(queues := s.queues[queue := args])
    case QueueBind(b) => s.(bindings := s.bindings + {b})
  }

  /** The declarations up to the first that is refused, and whether all were accepted. */
  function DeclareAll(s: State, ds: seq<Declaration>): (State, bool) {
    if ds == [] then (s, true)
    else
      var (t, ok) := DeclareAll(s, ds[..|ds| - 1]);
      if ok && Accepted(t, ds[|ds| - 1]) then (Declare(t, ds[|ds| - 1]), true) else (t, false)
  }

  datatype Names = Names(jobExchange: string, jobQueue: string, jobDLQ: string, eventExchange: string)

  function RetryArguments(n: Names, ttl: int): Arguments {
    Arguments(Some(n.jobExchange), Some(n.jobQueue), Some(ttl))
  }

  function DeclareRetry(n: Names, level: int): Declaration {
    QueueDeclare(RetryQueueName(n.jobQueue, level), RetryArguments(n, P.Ttl(level)))
  }

  /** A queue is bound to the job exchange under its own name. */
  function BindJobs(n: Names, queue: string): Declaration {
    QueueBind(Binding(n.jobExchange, queue, queue))
  }

  /** What `setup` declares, in its order. */
  function SetupDeclarations(n: Names): seq<Declaration> {
    [ExchangeDeclare(n.jobExchange, Direct),
     QueueDeclare(n.jobDLQ, Plain),
     BindJobs(n, n.jobDLQ),
     DeclareRetry(n, 1),
     BindJobs(n, RetryQueueName(n.jobQueue, 1)),
     DeclareRetry(n, 2),
     BindJobs(n, RetryQueueName(n.jobQueue, 2)),
     DeclareRetry(n, 3),
     BindJobs(n, RetryQueueName(n.jobQueue, 3)),
     QueueDeclare(n.jobQueue, Arguments(Some(n.jobExchange), Some(n.jobDLQ), None)),
     BindJobs(n, n.jobQueue),
     ExchangeDeclare(n.eventExchange, Fanout)]
  }

  // ---------------------------------------------------------------- routing

  /** AMQP 0-9-1, sections 3.1.3.1 and 3.1.3.2: a direct exchange matches keys, a fanout exchange ignores them. */
  function Route(s: State, exchange: string, key: string): set<string> {
    if exchange !in s.exchanges then {}
    else set b | b in s.bindings && b.exchange == exchange && (s.exchanges[exchange].Fanout? || b.key == key) :: b.queue
  }

  /** Where a queue's rejected or expired messages go. */
  function DeadLetterRoute(s: State, queue: string): set<string>
    requires queue in s.queues
  {
    var a := s.queues[queue];
    if a.deadExchange.Some? then Route(s, a.deadExchange.value, if a.deadKey.Some? then a.deadKey.value else queue) else {}
  }

  /** The names that `setup` needs to be different. */
  predicate Distinct(n: Names) {
    && n.jobDLQ != n.jobQueue && n.jobExchange != n.eventExchange
    && forall level | 1 <= level <= 3 :: n.jobDLQ != RetryQueueName(n.jobQueue, level)
  }

  /** The topology that `setup` leaves on a bare broker. */
  function Full(n: Names): State {
    var q1, q2, q3 := RetryQueueName(n.jobQueue, 1), RetryQueueName(n.jobQueue, 2), RetryQueueName(n.jobQueue, 3);
    State(
      map[n.jobExchange := Direct, n.eventExchange := Fanout],
      map[n.jobDLQ := Plain,
          q1 := RetryArguments(n, 1000), q2 := RetryArguments(n, 5000), q3 := RetryArguments(n, 10000),
          n.jobQueue := Arguments(Some(n.jobExchange), Some(n.jobDLQ), None)],
      {Binding(n.jobExchange, n.jobDLQ, n.jobDLQ), Binding(n.jobExchange, q1, q1), Binding(n.jobExchange, q2, q2),
       Binding(n.jobExchange, q3, q3), Binding(n.jobExchange, n.jobQueue, n.jobQueue)})
  }

  // ---------------------------------------------------------------- setting up, once and again

  /** `s` has part of `t`, and nothing else. */
  predicate PartOf(s: State, t: State) {
    && (forall e | e in s.exchanges :: e in t.exchanges && s.exchanges[e] == t.exchanges[e])
    && (forall q | q in s.queues :: q in t.queues && s.queues[q] == t.queues[q])
    && s.bindings <= t.bindings
  }

  /** The declaration is one of what `t` holds. */
  predicate Among(d: Declaration, t: State) {
    match d
    case ExchangeDeclare(name, kind) => name in t.exchanges && t.exchanges[name] == kind
    case QueueDeclare(queue, args) => queue in t.queues && t.queues[queue] == args
    case QueueBind(b) => b in t.bindings
  }

  /** Every binding is to the exchange declared first, of the queue declared just before. */
  predicate BindsDeclared(ds: seq<Declaration>) {
    forall i | 0 <= i < |ds| && ds[i].QueueBind? ::
      && i >= 2
      && ds[0].ExchangeDeclare? && ds[0].name == ds[i].binding.exchange
      && ds[i - 1].QueueDeclare? && ds[i - 1].queue == ds[i].binding.queue
  }

  lemma DeclareOne(u: State, t: State, d: Declaration)
    requires PartOf(u, t) && Among(d, t) && Accepted(u, d)
    ensures var v := Declare(u, d); PartOf(v, t) && PartOf(u, v) && Among(d, v)
  {
  }

  lemma AmongMore(u: State, v: State, d: Declaration)
    requires PartOf(u, v) && Among(d, u)
    ensures Among(d, v)
  {
  }

  lemma PartOfAll(s: State, u: State, v: State)
    requires PartOf(s, u) && PartOf(u, v)
    ensures PartOf(s, v)
  {
  }

  /** Declaring parts of `t` on parts of `t` is always accepted, and stays within `t`. */
  lemma {:induction false} DeclarePart(s: State, t: State, ds: seq<Declaration>)
    requires PartOf(s, t) && BindsDeclared(ds) && forall i | 0 <= i < |ds| :: Among(ds[i], t)
    ensures var r := DeclareAll(s, ds);
            && r.1 && PartOf(r.0, t) && PartOf(s, r.0)
            && forall i | 0 <= i < |ds| :: Among(ds[i], r.0)
  {
    if ds != [] {
      var before, d := ds[..|ds| - 1], ds[|ds| - 1];
      DeclarePart(s, t, before);
      var u := DeclareAll(s, before).0;
      if d.QueueBind? {
        assert Among(before[0], u) && Among(before[|before| - 1], u);
      }
      Compatible(u, t, d);
      DeclareOne(u, t, d);
      var v := Declare(u, d);
      PartOfAll(s, u, v);
      forall i | 0 <= i < |ds| ensures Among(ds[i], v) {
        if i < |before| {
          assert Among(before[i], u);
          AmongMore(u, v, ds[i]);
        }
      }
    }
  }

  lemma Compatible(u: State, t: State, d: Declaration)
    requires PartOf(u, t) && Among(d, t) && (d.QueueBind? ==> d.binding.exchange in u.exchanges && d.binding.queue in u.queues)
    ensures Accepted(u, d)
  {
  }

  lemma SetupAmong(n: Names)
    requires Distinct(n)
    ensures BindsDeclared(SetupDeclarations(n))
    ensures forall i | 0 <= i < |SetupDeclarations(n)| :: Among(SetupDeclarations(n)[i], Full(n))
  {
    RetryNames(n.jobQueue, 1, 2);
    RetryNames(n.jobQueue, 2, 3);
    RetryNames(n.jobQueue, 1, 3);
  }

  /** A state within `Full` that holds every declaration of `setup` is `Full`. */
  lemma NothingMissing(n: Names, s: State)
    requires PartOf(s, Full(n)) && forall i | 0 <= i < |SetupDeclarations(n)| :: Among(SetupDeclarations(n)[i], s)
    ensures s == Full(n)
  {
    var ds := SetupDeclarations(n);
    assert ds[0] == ExchangeDeclare(n.jobExchange, Direct) && ds[11] == ExchangeDeclare(n.eventExchange, Fanout);
    assert Among(ds[0], s) && Among(ds[1], s) && Among(ds[2], s) && Among(ds[3], s) && Among(ds[4], s) && Among(ds[5], s);
    assert Among(ds[6], s) && Among(ds[7], s) && Among(ds[8], s) && Among(ds[9], s) && Among(ds[10], s) && Among(ds[11], s);
    assert s.exchanges == Full(n).exchanges;
    assert s.queues == Full(n).queues;
    assert s.bindings == Full(n).bindings;
  }

  /** From anything that is part of the topology, `setup` reaches the whole of it. */
  lemma SetupCompletes(n: Names, s: State)
    requires Distinct(n) && PartOf(s, Full(n))
    ensures DeclareAll(s, SetupDeclarations(n)) == (Full(n), true)
  {
    SetupAmong(n);
    DeclarePart(s, Full(n), SetupDeclarations(n));
    NothingMissing(n, DeclareAll(s, SetupDeclarations(n)).0);
  }

  /**
    However often `setup` was broken off, and wherever, the next complete one reaches the same topology; and once
    more changes nothing.
  */
  lemma SetupConverges(n: Names, k: nat)
    requires Distinct(n) && k <= |SetupDeclarations(n)|
    ensures var broken := DeclareAll(Bare, SetupDeclarations(n)[..k]).0;
            && DeclareAll(broken, SetupDeclarations(n)) == (Full(n), true)
            && DeclareAll(Full(n), SetupDeclarations(n)) == (Full(n), true)
            && (forall s | PartOf(s, Full(n)) :: DeclareAll(s, SetupDeclarations(n)) == (Full(n), true))
  {
    SetupAmong(n);
    DeclarePart(Bare, Full(n), SetupDeclarations(n)[..k]);
    forall s | PartOf(s, Full(n)) ensures DeclareAll(s, SetupDeclarations(n)) == (Full(n), true) {
      SetupCompletes(n, s);
    }
  }

  /** A refused declaration leaves `setup` failed, and two that contradict each other cannot both be accepted. */
  lemma {:induction false} Conflict(s: State, ds: seq<Declaration>, a: nat, b: nat)
    requires a < b < |ds|
    requires || (ds[a].ExchangeDeclare? && ds[b].ExchangeDeclare? && ds[a].name == ds[b].name && ds[a].kind != ds[b].kind)
             || (ds[a].QueueDeclare? && ds[b].QueueDeclare? && ds[a].queue == ds[b].queue && ds[a].args != ds[b].args)
    ensures !DeclareAll(s, ds).1
  {
    if b < |ds| - 1 {
      Conflict(s, ds[..|ds| - 1], a, b);
    } else {
      StaysDeclared(s, ds[..|ds| - 1], a);
    }
  }

  lemma {:induction false} StaysDeclared(s: State, ds: seq<Declaration>, a: nat)
    requires a < |ds|
    ensures var r := DeclareAll(s, ds); r.1 ==> Among(ds[a], r.0)
  {
    if a < |ds| - 1 { StaysDeclared(s, ds[..|ds| - 1], a); }
  }

  /** Whatever the broker holds, `setup` gets through only if the configured names are different. */
  lemma SetupNeedsDistinct(s: State, n: Names)
    requires DeclareAll(s, SetupDeclarations(n)).1
    ensures Distinct(n)
  {
    var ds := SetupDeclarations(n);
    if n.jobExchange == n.eventExchange {
      Conflict(s, ds, 0, 11);
    } else if n.jobDLQ == n.jobQueue {
      Conflict(s, ds, 1, 9);
    } else if level :| 1 <= level <= 3 && n.jobDLQ == RetryQueueName(n.jobQueue, level) {
      assert ds[1 + 2 * level] == DeclareRetry(n, level);
      Conflict(s, ds, 1, 1 + 2 * level);
    }
  }

  /** `setup` succeeds on a bare broker exactly when the configured names are different. */
  lemma SetupSucceedsExactly(n: Names)
    ensures DeclareAll(Bare, SetupDeclarations(n)).1 <==> Distinct(n)
  {
    if Distinct(n) {
      SetupCompletes(n, Bare);
    } else if DeclareAll(Bare, SetupDeclarations(n)).1 {
      SetupNeedsDistinct(Bare, n);
    }
  }

  // ---------------------------------------------------------------- every message has one way to go

  lemma RouteIs(n: Names, queue: string)
    requires Distinct(n) && Binding(n.jobExchange, queue, queue) in Full(n).bindings
    ensures Route(Full(n), n.jobExchange, queue) == {queue}
  {
    RetryNames(n.jobQueue, 1, 2);
    RetryNames(n.jobQueue, 2, 3);
    RetryNames(n.jobQueue, 1, 3);
    assert Binding(n.jobExchange, queue, queue) in Full(n).bindings;
  }

  /**
    Each publish reaches exactly its queue; a retry queue returns expired messages to the main queue after its TTL;
    the main queue's rejected messages go to the dead-letter queue; messages wait in these two without limit, and
    nothing takes them out of the dead-letter queue.
  */
  predicate Routed(t: State, n: Names) {
    && t.exchanges == map[n.jobExchange := Direct, n.eventExchange := Fanout]
    && t.queues.Keys == {n.jobQueue, n.jobDLQ} + (set level | 1 <= level <= 3 :: RetryQueueName(n.jobQueue, level))
    && Route(t, n.jobExchange, n.jobQueue) == {n.jobQueue}
    && t.queues[n.jobQueue].ttl.None? && DeadLetterRoute(t, n.jobQueue) == {n.jobDLQ}
    && Route(t, n.jobExchange, n.jobDLQ) == {n.jobDLQ}
    && t.queues[n.jobDLQ].ttl.None? && DeadLetterRoute(t, n.jobDLQ) == {}
    && (forall level | 1 <= level <= 3 ::
          var q := RetryQueueName(n.jobQueue, level);
          && q in t.queues && Route(t, n.jobExchange, q) == {q}
          && t.queues[q].ttl == Some([1000, 5000, 10000][level - 1]) && DeadLetterRoute(t, q) == {n.jobQueue})
  }

  lemma EveryMessageRouted(n: Names)
    requires Distinct(n)
    ensures Routed(Full(n), n)
  {
    RetryNames(n.jobQueue, 1, 2);
    RetryNames(n.jobQueue, 2, 3);
    RetryNames(n.jobQueue, 1, 3);
    RouteIs(n, n.jobQueue);
    RouteIs(n, n.jobDLQ);
    forall level | 1 <= level <= 3
      ensures var q, t := RetryQueueName(n.jobQueue, level), Full(n);
              && q in t.queues && Route(t, n.jobExchange, q) == {q}
              && t.queues[q].ttl == Some([1000, 5000, 10000][level - 1]) && DeadLetterRoute(t, q) == {n.jobQueue}
    {
      RouteIs(n, RetryQueueName(n.jobQueue, level));
    }
    FullQueues(n);
  }

  lemma FullQueues(n: Names)
    ensures Full(n).queues.Keys == {n.jobQueue, n.jobDLQ} + (set level | 1 <= level <= 3 :: RetryQueueName(n.jobQueue, level))
  {
    var names := set level | 1 <= level <= 3 :: RetryQueueName(n.jobQueue, level);
    assert RetryQueueName(n.jobQueue, 1) in names && RetryQueueName(n.jobQueue, 2) in names && RetryQueueName(n.jobQueue, 3) in names;
  }

  /** Every event reaches every queue that a listener has bound to the event exchange, whatever the key. */
  lemma EventsFanOut(n: Names, listeners: set<string>, key: string)
    requires Distinct(n)
    ensures var t := Full(n);
            var bound := set q | q in listeners :: Binding(n.eventExchange, "", q);
            Route(t.(bindings := t.bindings + bound), n.eventExchange, key) == listeners
  {
    var t := Full(n);
    var bound := set q | q in listeners :: Binding(n.eventExchange, "", q);
    var r := Route(t.(bindings := t.bindings + bound), n.eventExchange, key);
    forall q | q in listeners ensures q in r {
      assert Binding(n.eventExchange, "", q) in bound;
    }
  }

  // ---------------------------------------------------------------- the code of setup

  /** What `setup` comes to on a broker that holds nothing but parts of the topology, a bare one in particular. */
  lemma SetupOutcome(s: State, n: Names)
    ensures PartOf(s, Full(n)) ==> (DeclareAll(s, SetupDeclarations(n)).1 <==> Distinct(n))
    ensures PartOf(s, Full(n)) && Distinct(n) ==> Routed(DeclareAll(s, SetupDeclarations(n)).0, n)
  {
    if DeclareAll(s, SetupDeclarations(n)).1 {
      SetupNeedsDistinct(s, n);
    }
    if PartOf(s, Full(n)) && Distinct(n) {
      SetupCompletes(n, s);
      EveryMessageRouted(n);
    }
  }

  /** A broker that is being set up; `answers` tells how many more declarations it answers before the channel dies. */
  class Channel {
    var topology: State
    var answers: nat

    constructor (s: State, n: nat)
      ensures topology == s && answers == n
    {
      topology, answers := s, n;
    }

    /** The first `k` of the declarations `ds` have been answered, starting from `s` with `n` answers left. */
    ghost predicate Answered(s: State, n: nat, ds: seq<Declaration>, k: nat)
      reads this
    {
      k <= |ds| && n >= k && answers == n - k && DeclareAll(s, ds[..k]) == (topology, true)
    }

    /** The declarations `ds` have come as far as the answers and the broker let them. */
    ghost predicate Exhausted(s: State, n: nat, ds: seq<Declaration>)
      reads this
    {
      && topology == DeclareAll(s, ds[..if n < |ds| then n else |ds|]).0
      && !(n >= |ds| && DeclareAll(s, ds).1)
    }

    /** One declaration, the `k`-th of `ds`. */
    method Send(d: Declaration, ghost s: State, ghost n: nat, ghost ds: seq<Declaration>, ghost k: nat) returns (ok: bool)
      requires Answered(s, n, ds, k) && k < |ds| && d == ds[k]
      modifies this
      ensures if ok then Answered(s, n, ds, k + 1) else Exhausted(s, n, ds)
      ensures ok == (old(answers) > 0 && Accepted(old(topology), d))
    {
      ok := answers > 0 && Accepted(topology, d);
      assert ds[..k + 1][..k] == ds[..k];
      if ok {
        topology := Declare(topology, d);
        answers := answers - 1;
      } else if !Accepted(topology, d) {
        StuckAt(s, ds, k, if n < |ds| then n else |ds|);
        StuckAt(s, ds, k, |ds|);
        assert ds[..|ds|] == ds;
      }
    }

    /** The three delayed retry queues. */
    method SetupRetries(n: Names, ghost s: State, ghost m: nat) returns (ok: bool)
      requires Answered(s, m, SetupDeclarations(n), 3)
      modifies this
      ensures if ok then Answered(s, m, SetupDeclarations(n), 9) else Exhausted(s, m, SetupDeclarations(n))
    {
      ghost var ds := SetupDeclarations(n);
      var level := 1;
      while level <= 3
        invariant 1 <= level <= 4 && Answered(s, m, ds, 1 + 2 * level)
      {
        assert ds[1 + 2 * level] == DeclareRetry(n, level) && ds[2 + 2 * level] == BindJobs(n, RetryQueueName(n.jobQueue, level));
        ok := Send(DeclareRetry(n, level), s, m, ds, 1 + 2 * level);
        if !ok { return; }
        ok := Send(BindJobs(n, RetryQueueName(n.jobQueue, level)), s, m, ds, 2 + 2 * level);
        if !ok { return; }
        level := level + 1;
      }
      ok := true;
    }

    /** The declarations of `setup` in order, up to the first that fails. */
    method DeclareTopology(n: Names) returns (ok: bool)
      modifies this
      ensures var ds := SetupDeclarations(n);
              if ok then Answered(old(topology), old(answers), ds, |ds|) else Exhausted(old(topology), old(answers), ds)
    {
      ghost var s, m, ds := topology, answers, SetupDeclarations(n);
      ok := Send(ExchangeDeclare(n.jobExchange, Direct), s, m, ds, 0);
      if !ok { return; }
      ok := Send(QueueDeclare(n.jobDLQ, Plain), s, m, ds, 1);
      if !ok { return; }
      ok := Send(BindJobs(n, n.jobDLQ), s, m, ds, 2);
      if !ok { return; }
      ok := SetupRetries(n, s, m);
      if !ok { return; }
      ok := Send(QueueDeclare(n.jobQueue, Arguments(Some(n.jobExchange), Some(n.jobDLQ), None)), s, m, ds, 9);
      if !ok { return; }
      ok := Send(BindJobs(n, n.jobQueue), s, m, ds, 10);
      if !ok { return; }
      ok := Send(ExchangeDeclare(n.eventExchange, Fanout), s, m, ds, 11);
    }

    /** `setup`: on a broker with no more than parts of the topology it succeeds if it may, and messages then have their ways. */
    method Setup(n: Names) returns (ok: bool)
      modifies this
      ensures var ds := SetupDeclarations(n);
              if ok then Answered(old(topology), old(answers), ds, |ds|) else Exhausted(old(topology), old(answers), ds)
      ensures PartOf(old(topology), Full(n)) ==> (ok <==> Distinct(n) && old(answers) >= 12)
      ensures PartOf(old(topology), Full(n)) && ok ==> Routed(topology, n)
    {
      SetupOutcome(topology, n);
      ghost var ds := SetupDeclarations(n);
      assert ds[..|ds|] == ds;
      ok := DeclareTopology(n);
    }
  }

  /** Nothing is declared after a refusal. */
  lemma {:induction false} StuckAt(s: State, ds: seq<Declaration>, k: nat, m: nat)
    requires k < |ds| && m <= |ds| && DeclareAll(s, ds[..k]).1 && !Accepted(DeclareAll(s, ds[..k]).0, ds[k])
    ensures m > k ==> DeclareAll(s, ds[..m]) == (DeclareAll(s, ds[..k]).0, false)
  {
    if m > k {
      assert ds[..m][..m - 1] == ds[..m - 1];
      StuckAt(s, ds, k, m - 1);
    }
  }
}
