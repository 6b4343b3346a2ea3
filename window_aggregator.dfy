/** The event loop of the pipeline's `main`: every parsed event is filed into
    the accumulator of its kind under a key made of its grouping fields and the
    start of its time window. Logins collect the set of addresses per user, host
    and hour; ssh failures are counted per user, address, host and hour;
    privilege escalations collect their classified commands per user, host and
    ten minutes; authentication failures are counted per user, source, host and
    ten minutes; identity changes are kept one by one.

    Python dictionaries remember the order in which keys were first inserted,
    and the signals are later emitted in that order, so each map here comes with
    the sequence of its keys in first-insertion order. */
module WindowAggregator {
  import opened Wrappers
  import opened Sequences
  import opened CommandClassifier
  import opened EventExtractor

  const Hour: nat := 3600
  const TenMinutes: nat := 600

  /** `int(t // w) * w`: the start of the window of width `w` holding `t`. */
  function WindowStart(t: int, w: nat): (s: int)
    requires w > 0
    ensures s == t - t % w
    ensures s <= t < s + w
  {
    (t / w) * w
  }

  lemma MulLess(a: int, b: int, w: nat)
    requires w > 0 && a < b
    ensures a * w < b * w
  {
    assert b * w - a * w == (b - a) * w;
  }

  /** Two instants share a window exactly when they have the same quotient. */
  lemma SameWindow(t1: int, t2: int, w: nat)
    requires w > 0
    ensures WindowStart(t1, w) == WindowStart(t2, w) <==> t1 / w == t2 / w
  {
    if t1 / w < t2 / w { MulLess(t1 / w, t2 / w, w); }
    if t2 / w < t1 / w { MulLess(t2 / w, t1 / w, w); }
  }

  /** (user, host, window start): the key of logins and of privilege escalations. */
  datatype UserWindow = UserWindow(user: string, host: string, window: int)
  /** (user, address, host, window start): the key of ssh failures. */
  datatype FailureKey = FailureKey(user: string, ip: string, host: string, window: int)
  /** (user, source, host, window start): the key of authentication failures. */
  datatype AuthKey = AuthKey(user: string, source: string, host: string, window: int)

  /** One classified command of a privilege-escalation window. Weights are in
      tenths. */
  datatype CommandEntry = CommandEntry(
    command: string, risk: string, intent: string, mitre: string, compliance: string,
    weight: nat, source: string, confidence: string)

  /** The accumulators, each map with its keys in first-insertion order. */
  datatype Groups = Groups(
    access: map<UserWindow, set<string>>, accessOrder: seq<UserWindow>,
    failures: map<FailureKey, nat>, failureOrder: seq<FailureKey>,
    privileged: map<UserWindow, seq<CommandEntry>>, privilegedOrder: seq<UserWindow>,
    authFailures: map<AuthKey, nat>, authOrder: seq<AuthKey>,
    iamEvents: seq<Event>)

  const NoGroups: Groups := Groups(map[], [], map[], [], map[], [], map[], [], [])

  /** A sequence without repetitions. */
  predicate Distinct<K(==)>(s: seq<K>) {
    forall i, j :: 0 <= i < j < |s| ==> s[i] != s[j]
  }

  /** An order lists each key of its map exactly once. */
  ghost predicate Lists<K(!new), V>(order: seq<K>, m: map<K, V>) {
    Distinct(order) && (forall k :: k in order <==> k in m)
  }

  /** Every order lists the keys of its map; every window collects at least one
      address or command and every counter is positive. */
  ghost predicate Valid(g: Groups) {
    && Lists(g.accessOrder, g.access) && Lists(g.failureOrder, g.failures)
    && Lists(g.privilegedOrder, g.privileged) && Lists(g.authOrder, g.authFailures)
    && (forall k :: k in g.access ==> g.access[k] != {})
    && (forall k :: k in g.failures ==> g.failures[k] > 0)
    && (forall k :: k in g.privileged ==> g.privileged[k] != [])
    && (forall k :: k in g.authFailures ==> g.authFailures[k] > 0)
    && (forall e :: e in g.iamEvents ==> e.IamChange?)
  }

  /** The keys of the events. */
  function LoginKey(e: Event): UserWindow
    requires e.SshLogin?
  {
    UserWindow(e.user, e.hostname, WindowStart(e.timestamp, Hour))
  }

  function FailureKeyOf(e: Event): FailureKey
    requires e.SshFailure?
  {
    FailureKey(e.user, e.ip, e.hostname, WindowStart(e.timestamp, Hour))
  }

  function EscalationKey(e: Event): UserWindow
    requires e.PrivilegeEscalation?
  {
    UserWindow(e.user, e.hostname, WindowStart(e.timestamp, TenMinutes))
  }

  function AuthKeyOf(e: Event): AuthKey
    requires e.AuthFailure?
  {
    AuthKey(e.user, e.source, e.hostname, WindowStart(e.timestamp, TenMinutes))
  }

  /** The classified command of an escalation: its intent metadata, "high" risk
      from weight 0.4 on, source "unknown" and confidence "high" when the event
      has none. */
  function Entry(e: Event): (c: CommandEntry)
    requires e.PrivilegeEscalation?
    ensures c.command == e.command && c.weight == Categorize(e.command).weight
    ensures c.risk == "high" <==> c.weight >= 4
    ensures c.source == e.via.GetOr("unknown") && c.confidence == e.attribution.GetOr("high")
  {
    var meta := Categorize(e.command);
    CommandEntry(e.command, if meta.weight >= 4 then "high" else "normal", meta.intent, meta.mitre,
                 meta.compliance, meta.weight, e.via.GetOr("unknown"), e.attribution.GetOr("high"))
  }

  /** `order` with `k` appended unless already listed. */
  function Remember<K(==,!new)>(order: seq<K>, k: K): (r: seq<K>)
    ensures forall x :: x in r <==> x in order || x == k
    ensures Distinct(order) ==> Distinct(r)
  {
    if k in order then order else order + [k]
  }

  /** What one event does to the accumulators. */
  function Step(g: Groups, e: Event): Groups {
    match e
    case SshLogin(_, _, _, ip) =>
      var k := LoginKey(e);
      var ips := if k in g.access then g.access[k] else {};
      g.(access := g.access[k := ips + {ip}], accessOrder := Remember(g.accessOrder, k))
    case SshFailure(_, _, _, _) =>
      var k := FailureKeyOf(e);
      var n := if k in g.failures then g.failures[k] else 0;
      g.(failures := g.failures[k := n + 1], failureOrder := Remember(g.failureOrder, k))
    case PrivilegeEscalation(_, _, _, _, _, _, _) =>
      var k := EscalationKey(e);
      var entries := if k in g.privileged then g.privileged[k] else [];
      g.(privileged := g.privileged[k := entries + [Entry(e)]], privilegedOrder := Remember(g.privilegedOrder, k))
    case AuthFailure(_, _, _, _, _) =>
      var k := AuthKeyOf(e);
      var n := if k in g.authFailures then g.authFailures[k] else 0;
      g.(authFailures := g.authFailures[k := n + 1], authOrder := Remember(g.authOrder, k))
    case IamChange(_, _, _, _, _, _) =>
      g.(iamEvents := g.iamEvents + [e])
  }

  /** The accumulators after a sequence of events. */
  function Accumulate(es: seq<Event>): Groups {
    if es == [] then NoGroups
    else Step(Accumulate(es[..|es| - 1]), es[|es| - 1])
  }

  /** The dictionaries the event loop of `main` fills in place. */
  class Accumulators {
    var access: map<UserWindow, set<string>>
    var accessOrder: seq<UserWindow>
    var failures: map<FailureKey, nat>
    var failureOrder: seq<FailureKey>
    var privileged: map<UserWindow, seq<CommandEntry>>
    var privilegedOrder: seq<UserWindow>
    var authFailures: map<AuthKey, nat>
    var authOrder: seq<AuthKey>
    var iamEvents: seq<Event>

    /** The accumulators as a value. */
    function Model(): Groups
      reads this
    {
      Groups(access, accessOrder, failures, failureOrder, privileged, privilegedOrder,
             authFailures, authOrder, iamEvents)
    }

    constructor ()
      ensures Model() == NoGroups
    {
      access, accessOrder := map[], [];
      failures, failureOrder := map[], [];
      privileged, privilegedOrder := map[], [];
      authFailures, authOrder := map[], [];
      iamEvents := [];
    }

    /** A login adds its address to the set of its hour. */
    method AddLogin(e: Event)
      requires e.SshLogin? && Valid(Model())
      modifies this
      ensures Model() == Step(old(Model()), e)
    {
      var k := LoginKey(e);
      if k !in access {
        access := access[k := {}];
        accessOrder := accessOrder + [k];
      }
      access := access[k := access[k] + {e.ip}];
    }

    /** A failed ssh login counts one more for its key. */
    method AddFailure(e: Event)
      requires e.SshFailure? && Valid(Model())
      modifies this
      ensures Model() == Step(old(Model()), e)
    {
      var k := FailureKeyOf(e);
      if k !in failures {
        failureOrder := failureOrder + [k];
      }
      failures := failures[k := (if k in failures then failures[k] else 0) + 1];
    }

    /** An escalation appends its classified command to its window. */
    method AddEscalation(e: Event)
      requires e.PrivilegeEscalation? && Valid(Model())
      modifies this
      ensures Model() == Step(old(Model()), e)
    {
      var k := EscalationKey(e);
      if k !in privileged {
        privileged := privileged[k := []];
        privilegedOrder := privilegedOrder + [k];
      }
      privileged := privileged[k := privileged[k] + [Entry(e)]];
    }

    /** An authentication failure counts one more for its key. */
    method AddAuthFailure(e: Event)
      requires e.AuthFailure? && Valid(Model())
      modifies this
      ensures Model() == Step(old(Model()), e)
    {
      var k := AuthKeyOf(e);
      if k !in authFailures {
        authOrder := authOrder + [k];
      }
      authFailures := authFailures[k := (if k in authFailures then authFailures[k] else 0) + 1];
    }

    /** One event of the loop, filed by its kind. */
    method Add(e: Event)
      requires Valid(Model())
      modifies this
      ensures Model() == Step(old(Model()), e)
      ensures Valid(Model())
    {
      StepValid(Model(), e);
      match e {
        case SshLogin(_, _, _, _) => AddLogin(e);
        case SshFailure(_, _, _, _) => AddFailure(e);
        case PrivilegeEscalation(_, _, _, _, _, _, _) => AddEscalation(e);
        case AuthFailure(_, _, _, _, _) => AddAuthFailure(e);
        case IamChange(_, _, _, _, _, _) => iamEvents := iamEvents + [e];
      }
    }
  }

  /** The event loop: every event is filed, in arrival order. */
  method FoldEvents(events: seq<Event>) returns (g: Groups)
    ensures g == Accumulate(events)
    ensures Valid(g)
  {
    var acc := new Accumulators();
    var i := 0;
    while i < |events|
      invariant i <= |events|
      invariant acc.Model() == Accumulate(events[..i])
      invariant Valid(acc.Model())
    {
      acc.Add(events[i]);
      assert events[..i + 1][..i] == events[..i];
      i := i + 1;
    }
    assert events[..i] == events;
    g := acc.Model();
  }

  /** One event keeps the accumulators valid. */
  lemma StepValid(g: Groups, e: Event)
    requires Valid(g)
    ensures Valid(Step(g, e))
  {
  }

  /** The accumulators of any sequence of events are valid. */
  lemma {:induction false} AccumulateValid(es: seq<Event>)
    ensures Valid(Accumulate(es))
  {
    if es != [] {
      AccumulateValid(es[..|es| - 1]);
      StepValid(Accumulate(es[..|es| - 1]), es[|es| - 1]);
    }
  }

  /** How many ssh failures of `es` have key `k`. */
  function FailureCount(es: seq<Event>, k: FailureKey): nat {
    if es == [] then 0
    else
      var e := es[|es| - 1];
      FailureCount(es[..|es| - 1], k) + (if e.SshFailure? && FailureKeyOf(e) == k then 1 else 0)
  }

  /** How many authentication failures of `es` have key `k`. */
  function AuthCount(es: seq<Event>, k: AuthKey): nat {
    if es == [] then 0
    else
      var e := es[|es| - 1];
      AuthCount(es[..|es| - 1], k) + (if e.AuthFailure? && AuthKeyOf(e) == k then 1 else 0)
  }

  /** The addresses of the logins of `es` with key `k`. */
  function Addresses(es: seq<Event>, k: UserWindow): set<string> {
    if es == [] then {}
    else
      var e := es[|es| - 1];
      Addresses(es[..|es| - 1], k) + (if e.SshLogin? && LoginKey(e) == k then {e.ip} else {})
  }

  /** The classified commands of the escalations of `es` with key `k`, in order. */
  function Commands(es: seq<Event>, k: UserWindow): seq<CommandEntry> {
    if es == [] then []
    else
      var e := es[|es| - 1];
      Commands(es[..|es| - 1], k) + (if e.PrivilegeEscalation? && EscalationKey(e) == k then [Entry(e)] else [])
  }

  /** What one event adds under key `k`. */
  lemma FailureStep(g: Groups, e: Event, k: FailureKey)
    ensures var h := Step(g, e);
            var mine := e.SshFailure? && FailureKeyOf(e) == k;
            (k in h.failures <==> k in g.failures || mine)
            && (k in h.failures ==> h.failures[k] == (if k in g.failures then g.failures[k] else 0) + (if mine then 1 else 0))
  {
  }

  /** What one event adds under key `k`. */
  lemma AuthFailureStep(g: Groups, e: Event, k: AuthKey)
    ensures var h := Step(g, e);
            var mine := e.AuthFailure? && AuthKeyOf(e) == k;
            (k in h.authFailures <==> k in g.authFailures || mine)
            && (k in h.authFailures ==> h.authFailures[k] == (if k in g.authFailures then g.authFailures[k] else 0) + (if mine then 1 else 0))
  {
  }

  /** What one event adds under key `k`. */
  lemma AddressStep(g: Groups, e: Event, k: UserWindow)
    ensures var h := Step(g, e);
            var mine := e.SshLogin? && LoginKey(e) == k;
            (k in h.access <==> k in g.access || mine)
            && (k in h.access ==> h.access[k] == (if k in g.access then g.access[k] else {}) + (if mine then {e.ip} else {}))
  {
  }

  /** What one event adds under key `k`. */
  lemma CommandStep(g: Groups, e: Event, k: UserWindow)
    ensures var h := Step(g, e);
            var mine := e.PrivilegeEscalation? && EscalationKey(e) == k;
            (k in h.privileged <==> k in g.privileged || mine)
            && (k in h.privileged ==> h.privileged[k] == (if k in g.privileged then g.privileged[k] else []) + (if mine then [Entry(e)] else []))
  {
  }

  /** Each accumulator holds exactly what the events with its key contribute:
      a key is present iff some event has it, and a counter is the number of
      such events. */
  lemma {:induction false} FailuresCounted(es: seq<Event>)
    ensures forall k :: k in Accumulate(es).failures <==> FailureCount(es, k) > 0
    ensures forall k :: k in Accumulate(es).failures ==> Accumulate(es).failures[k] == FailureCount(es, k)
  {
    if es != [] {
      var init := es[..|es| - 1];
      FailuresCounted(init);
      forall k: FailureKey
        ensures k in Accumulate(es).failures <==> FailureCount(es, k) > 0
        ensures k in Accumulate(es).failures ==> Accumulate(es).failures[k] == FailureCount(es, k)
      {
        FailureStep(Accumulate(init), es[|es| - 1], k);
      }
    }
  }

  lemma {:induction false} AuthFailuresCounted(es: seq<Event>)
    ensures forall k :: k in Accumulate(es).authFailures <==> AuthCount(es, k) > 0
    ensures forall k :: k in Accumulate(es).authFailures ==> Accumulate(es).authFailures[k] == AuthCount(es, k)
  {
    if es != [] {
      var init := es[..|es| - 1];
      AuthFailuresCounted(init);
      forall k: AuthKey
        ensures k in Accumulate(es).authFailures <==> AuthCount(es, k) > 0
        ensures k in Accumulate(es).authFailures ==> Accumulate(es).authFailures[k] == AuthCount(es, k)
      {
        AuthFailureStep(Accumulate(init), es[|es| - 1], k);
      }
    }
  }

  /** An hour of logins holds the addresses of the logins with its key. */
  lemma {:induction false} AddressesCollected(es: seq<Event>)
    ensures forall k :: k in Accumulate(es).access <==> Addresses(es, k) != {}
    ensures forall k :: k in Accumulate(es).access ==> Accumulate(es).access[k] == Addresses(es, k)
  {
    if es != [] {
      var init := es[..|es| - 1];
      AddressesCollected(init);
      forall k: UserWindow
        ensures k in Accumulate(es).access <==> Addresses(es, k) != {}
        ensures k in Accumulate(es).access ==> Accumulate(es).access[k] == Addresses(es, k)
      {
        AddressStep(Accumulate(init), es[|es| - 1], k);
      }
    }
  }

  /** A privilege window holds the commands of the escalations with its key, in
      arrival order. */
  lemma {:induction false} CommandsCollected(es: seq<Event>)
    ensures forall k :: k in Accumulate(es).privileged <==> Commands(es, k) != []
    ensures forall k :: k in Accumulate(es).privileged ==> Accumulate(es).privileged[k] == Commands(es, k)
  {
    if es != [] {
      var init := es[..|es| - 1];
      CommandsCollected(init);
      forall k: UserWindow
        ensures k in Accumulate(es).privileged <==> Commands(es, k) != []
        ensures k in Accumulate(es).privileged ==> Accumulate(es).privileged[k] == Commands(es, k)
      {
        CommandStep(Accumulate(init), es[|es| - 1], k);
      }
    }
  }

  /** Identity changes are kept one by one, in arrival order. */
  lemma {:induction false} IamEventsKept(es: seq<Event>)
    ensures Accumulate(es).iamEvents == IamEventsOf(es)
  {
    if es != [] {
      IamEventsKept(es[..|es| - 1]);
    }
  }

  /** The identity changes of `es`, in order. */
  function IamEventsOf(es: seq<Event>): seq<Event> {
    if es == [] then []
    else IamEventsOf(es[..|es| - 1]) + (if es[|es| - 1].IamChange? then [es[|es| - 1]] else [])
  }

  lemma {:induction false} CountsAppend(a: seq<Event>, b: seq<Event>)
    ensures forall k :: FailureCount(a + b, k) == FailureCount(a, k) + FailureCount(b, k)
    ensures forall k :: AuthCount(a + b, k) == AuthCount(a, k) + AuthCount(b, k)
    ensures forall k :: Addresses(a + b, k) == Addresses(a, k) + Addresses(b, k)
    decreases |b|
  {
    if b == [] {
      assert a + b == a;
    } else {
      CountsAppend(a, b[..|b| - 1]);
      assert (a + b)[..|a + b| - 1] == a + b[..|b| - 1];
    }
  }

  /** The counters and address sets of one event. */
  lemma CountsOfOne(e: Event)
    ensures forall k :: FailureCount([e], k) == (if e.SshFailure? && FailureKeyOf(e) == k then 1 else 0)
    ensures forall k :: AuthCount([e], k) == (if e.AuthFailure? && AuthKeyOf(e) == k then 1 else 0)
    ensures forall k :: Addresses([e], k) == (if e.SshLogin? && LoginKey(e) == k then {e.ip} else {})
  {
    assert [e][..0] == [];
  }

  /** The counters and address sets depend on which events arrived, each as
      often, and not on their order. */
  lemma {:induction false} CountsPermuted(x: seq<Event>, y: seq<Event>)
    requires multiset(x) == multiset(y)
    ensures forall k :: FailureCount(x, k) == FailureCount(y, k)
    ensures forall k :: AuthCount(x, k) == AuthCount(y, k)
    ensures forall k :: Addresses(x, k) == Addresses(y, k)
    decreases |x|
  {
    if x == [] {
      assert |y| == |multiset(y)| == 0;
    } else {
      var j := RemoveMatching(x, y);
      var e := x[|x| - 1];
      CountsPermuted(x[..|x| - 1], y[..j] + y[j + 1..]);
      assert y == y[..j] + [e] + y[j + 1..];
      CountsAppend(y[..j], y[j + 1..]);
      CountsAppend(y[..j] + [e], y[j + 1..]);
      CountsAppend(y[..j], [e]);
      CountsOfOne(e);
    }
  }

  /** Arrival order does not matter to the failure counters: any rearrangement
      of the events fills them alike. */
  lemma FailuresOrderFree(x: seq<Event>, y: seq<Event>)
    requires multiset(x) == multiset(y)
    ensures Accumulate(x).failures == Accumulate(y).failures
  {
    CountsPermuted(x, y);
    FailuresCounted(x);
    FailuresCounted(y);
    var m1, m2 := Accumulate(x).failures, Accumulate(y).failures;
    assert forall k :: k in m1 <==> k in m2;
    assert forall k :: k in m1 ==> m1[k] == m2[k];
  }

  /** Arrival order does not matter to the authentication-failure counters. */
  lemma AuthFailuresOrderFree(x: seq<Event>, y: seq<Event>)
    requires multiset(x) == multiset(y)
    ensures Accumulate(x).authFailures == Accumulate(y).authFailures
  {
    CountsPermuted(x, y);
    AuthFailuresCounted(x);
    AuthFailuresCounted(y);
    var m1, m2 := Accumulate(x).authFailures, Accumulate(y).authFailures;
    assert forall k :: k in m1 <==> k in m2;
    assert forall k :: k in m1 ==> m1[k] == m2[k];
  }

  /** Arrival order does not matter to the address sets of the login hours. */
  lemma AddressesOrderFree(x: seq<Event>, y: seq<Event>)
    requires multiset(x) == multiset(y)
    ensures Accumulate(x).access == Accumulate(y).access
  {
    CountsPermuted(x, y);
    AddressesCollected(x);
    AddressesCollected(y);
    var m1, m2 := Accumulate(x).access, Accumulate(y).access;
    assert forall k :: k in m1 <==> k in m2;
    assert forall k :: k in m1 ==> m1[k] == m2[k];
  }

  /** Two failed logins of the same user, address and host in the same hour
      share one counter. */
  lemma SameHourSameCounter(e1: Event, e2: Event)
    requires e1.SshFailure? && e2.SshFailure?
    requires e1.user == e2.user && e1.ip == e2.ip && e1.hostname == e2.hostname
    requires e1.timestamp / Hour == e2.timestamp / Hour
    ensures FailureKeyOf(e1) == FailureKeyOf(e2)
  {
    SameWindow(e1.timestamp, e2.timestamp, Hour);
  }

  /** Two escalations of the same user and host are in the same window exactly
      when their instants have the same ten-minute quotient. */
  lemma EscalationWindows(e1: Event, e2: Event)
    requires e1.PrivilegeEscalation? && e2.PrivilegeEscalation?
    requires e1.user == e2.user && e1.hostname == e2.hostname
    ensures EscalationKey(e1) == EscalationKey(e2) <==> e1.timestamp / TenMinutes == e2.timestamp / TenMinutes
  {
    SameWindow(e1.timestamp, e2.timestamp, TenMinutes);
  }
}
