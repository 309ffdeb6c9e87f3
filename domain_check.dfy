/**
 * `check_domain_for` of src/cloud_provider/utilities.rs: for every domain,
 * poll the DNS resolver until the domain resolves or the retries run out,
 * and report progress to the listeners. The resolver is a lookup oracle
 * (domain position, attempt number) -> resolved?, and the listeners are the
 * event log the method returns.
 */
module DomainCheck {
  import opened Wrappers
  import opened Strings
  import opened EngineErrors

  /** The retries `Fixed::from_millis(3000).take(100)` allows after the first lookup. */
  const DnsRetries: nat := 100

  datatype ProgressScope = Environment(id: string) | Router(id: string)
  datatype ProgressLevel = Info | Warn

  /** Which listener callback received the progress information. */
  datatype Notification = StartInProgress | Started | Error

  /** The progress messages, one per kind; `Text` gives their wording. */
  datatype Message =
    | CheckStart(domain: string)
    | StillInProgress(domain: string)
    | Ready(domain: string)
    | NotCritical(domain: string)

  function Text(m: Message): string {
    match m
    case CheckStart(d) => "Let's check domain resolution for '" + d + "'. Please wait, it can take some time..."
    case StillInProgress(d) => "Domain resolution check for '" + d + "' is still in progress..."
    case Ready(d) => "Domain " + d + " is ready! ⚡️"
    case NotCritical(d) =>
      "Unable to check domain availability for '" + d + "'. It can be due to a too long domain propagation. Note: this is not critical."
  }

  datatype Event = Event(notification: Notification, scope: ProgressScope, level: ProgressLevel, message: Message, id: string)

  /**
   * The pieces joined with `sep` between them (`Itertools::join`). Unlike
   * `Strings.Join`, it accepts an empty list, as the domains of an
   * environment may be.
   */
  function JoinWith(parts: seq<string>, sep: string): string {
    if |parts| == 0 then ""
    else if |parts| == 1 then parts[0]
    else parts[0] + sep + JoinWith(parts[1..], sep)
  }

  /** On a non-empty list and the '.' separator, `JoinWith` is `Strings.Join`. */
  lemma {:induction false} JoinWithDot(parts: seq<string>)
    requires |parts| >= 1
    ensures JoinWith(parts, ".") == Join(parts)
  {
    if |parts| > 1 {
      JoinWithDot(parts[1..]);
    }
  }

  function StartEvent(domain: string, executionId: string): Event {
    Event(StartInProgress, Environment(executionId), Info, CheckStart(domain), executionId)
  }

  function ProgressEvent(domain: string, executionId: string): Event {
    Event(StartInProgress, Environment(executionId), Info, StillInProgress(domain), executionId)
  }

  function ReadyEvent(domain: string, contextId: string): Event {
    Event(Started, Router(domain), Info, Ready(domain), contextId)
  }

  function NotCriticalEvent(domain: string, executionId: string, contextId: string): Event {
    Event(Error, Environment(executionId), Warn, NotCritical(domain), contextId)
  }

  /** The error returned when the resolver cannot be built: it names every domain, comma-separated. */
  function ResolverError(domains: seq<string>, executionId: string): EngineError {
    EngineError(Internal, Engine, executionId, Some(Text(CheckStart(JoinWith(domains, ",")))))
  }

  // ---------------------------------------------------------------------
  // The specification.

  /** The first attempt in [from, attempts) whose lookup succeeds, or `attempts` if none does. */
  function FirstSuccessFrom(lookup: (nat, nat) -> bool, i: nat, from: nat, attempts: nat): nat
    decreases attempts - from
  {
    if attempts <= from then attempts
    else if lookup(i, from) then from
    else FirstSuccessFrom(lookup, i, from + 1, attempts)
  }

  /** How many lookups fail before the domain at position `i` resolves (all of them if it never does). */
  function Failures(lookup: (nat, nat) -> bool, i: nat, attempts: nat): nat {
    FirstSuccessFrom(lookup, i, 0, attempts)
  }

  predicate Resolves(lookup: (nat, nat) -> bool, i: nat, attempts: nat) {
    exists a :: 0 <= a < attempts && lookup(i, a)
  }

  /** The events one domain produces. */
  function DomainLog(domain: string, i: nat, lookup: (nat, nat) -> bool, attempts: nat, executionId: string, contextId: string): seq<Event> {
    var failures := Failures(lookup, i, attempts);
    [StartEvent(domain, executionId)]
      + seq(failures, _ => ProgressEvent(domain, executionId))
      + [if failures < attempts then ReadyEvent(domain, contextId) else NotCriticalEvent(domain, executionId, contextId)]
  }

  /** The events of the first `n` domains, in order. */
  function ChecksLog(domains: seq<string>, n: nat, lookup: (nat, nat) -> bool, attempts: nat, executionId: string, contextId: string): seq<Event>
    requires n <= |domains|
  {
    if n == 0 then [] else
      ChecksLog(domains, n - 1, lookup, attempts, executionId, contextId)
        + DomainLog(domains[n - 1], n - 1, lookup, attempts, executionId, contextId)
  }

  // ---------------------------------------------------------------------
  // Properties of the specification.

  /** `FirstSuccessFrom` finds the first successful attempt, and only that one. */
  lemma {:induction false} FirstSuccessFromSpec(lookup: (nat, nat) -> bool, i: nat, from: nat, attempts: nat)
    requires from <= attempts
    ensures var f := FirstSuccessFrom(lookup, i, from, attempts);
      && from <= f <= attempts
      && (forall a :: from <= a < f ==> !lookup(i, a))
      && (f < attempts ==> lookup(i, f))
    decreases attempts - from
  {
    if from < attempts && !lookup(i, from) {
      FirstSuccessFromSpec(lookup, i, from + 1, attempts);
    }
  }

  /** The number of failures is the position of the first success; the domain resolves iff it is below the attempt count. */
  lemma FailuresSpec(lookup: (nat, nat) -> bool, i: nat, attempts: nat)
    ensures var f := Failures(lookup, i, attempts);
      && f <= attempts
      && (forall a :: 0 <= a < f ==> !lookup(i, a))
      && (f < attempts ==> lookup(i, f))
      && (f < attempts <==> Resolves(lookup, i, attempts))
  {
    FirstSuccessFromSpec(lookup, i, 0, attempts);
  }

  /**
   * Each domain emits one Info start event, one Info event per failed lookup,
   * then a Router-scope "ready" event if some lookup succeeded and a Warn
   * "not critical" event otherwise.
   */
  lemma DomainLogShape(domain: string, i: nat, lookup: (nat, nat) -> bool, attempts: nat, executionId: string, contextId: string)
    ensures var log := DomainLog(domain, i, lookup, attempts, executionId, contextId);
      && |log| == Failures(lookup, i, attempts) + 2
      && 2 <= |log| <= attempts + 2
      && log[0] == StartEvent(domain, executionId)
      && (forall j :: 0 < j < |log| - 1 ==> log[j] == ProgressEvent(domain, executionId))
      && (log[|log| - 1] == ReadyEvent(domain, contextId) <==> Resolves(lookup, i, attempts))
      && (log[|log| - 1] == NotCriticalEvent(domain, executionId, contextId) <==> !Resolves(lookup, i, attempts))
  {
    FailuresSpec(lookup, i, attempts);
  }

  /** Every domain contributes at least two and at most `attempts + 2` events. */
  lemma {:induction false} ChecksLogLength(domains: seq<string>, n: nat, lookup: (nat, nat) -> bool, attempts: nat, executionId: string, contextId: string)
    requires n <= |domains|
    ensures 2 * n <= |ChecksLog(domains, n, lookup, attempts, executionId, contextId)| <= n * (attempts + 2)
  {
    if n > 0 {
      ChecksLogLength(domains, n - 1, lookup, attempts, executionId, contextId);
      DomainLogShape(domains[n - 1], n - 1, lookup, attempts, executionId, contextId);
      var prev := |ChecksLog(domains, n - 1, lookup, attempts, executionId, contextId)|;
      var last := |DomainLog(domains[n - 1], n - 1, lookup, attempts, executionId, contextId)|;
      assert |ChecksLog(domains, n, lookup, attempts, executionId, contextId)| == prev + last;
      assert (n - 1) * (attempts + 2) + (attempts + 2) == n * (attempts + 2);
    }
  }

  /**
   * With the source's 100 retries, each domain gets 101 lookups: the events
   * of `domain`, checked as the `i`-th, end with the not-critical warning
   * exactly when all 101 fail, and a check of n domains emits at most 103
   * events per domain.
   */
  lemma DefaultRetries(domains: seq<string>, domain: string, i: nat, lookup: (nat, nat) -> bool, executionId: string, contextId: string)
    ensures var log := DomainLog(domain, i, lookup, DnsRetries + 1, executionId, contextId);
      log[|log| - 1] == NotCriticalEvent(domain, executionId, contextId) <==> forall a :: 0 <= a <= 100 ==> !lookup(i, a)
    ensures 2 * |domains| <= |ChecksLog(domains, |domains|, lookup, DnsRetries + 1, executionId, contextId)| <= |domains| * 103
  {
    DomainLogShape(domain, i, lookup, DnsRetries + 1, executionId, contextId);
    ChecksLogLength(domains, |domains|, lookup, DnsRetries + 1, executionId, contextId);
  }

  // ---------------------------------------------------------------------
  // The check itself.

  /**
   * `resolverBuilt` is whether `Resolver::new` succeeded; `retries` is the
   * number of retries after the first lookup (`DnsRetries` in the source).
   * The result is `Ok` whatever the lookups return; only a resolver that
   * cannot be built gives an error, before any domain is visited.
   */
  method CheckDomainFor(resolverBuilt: bool, domains: seq<string>, lookup: (nat, nat) -> bool, retries: nat,
                        executionId: string, contextId: string)
    returns (r: Result<(), EngineError>, events: seq<Event>)
    ensures !resolverBuilt ==> r == Err(ResolverError(domains, executionId)) && events == []
    ensures resolverBuilt ==> r == Ok(()) && events == ChecksLog(domains, |domains|, lookup, retries + 1, executionId, contextId)
  {
    events := [];
    if !resolverBuilt {
      return Err(ResolverError(domains, executionId)), events;
    }
    var attempts := retries + 1;
    var i := 0;
    while i < |domains|
      invariant i <= |domains|
      invariant events == ChecksLog(domains, i, lookup, attempts, executionId, contextId)
    {
      var domain := domains[i];
      ghost var before := events;
      events := events + [StartEvent(domain, executionId)];

      var attempt := 0;
      var ready := false;
      while attempt < attempts && !ready
        invariant attempt <= attempts
        invariant forall a :: 0 <= a < attempt ==> !lookup(i, a)
        invariant ready ==> attempt < attempts && lookup(i, attempt)
        invariant events == before + [StartEvent(domain, executionId)] + seq(attempt, _ => ProgressEvent(domain, executionId))
        decreases attempts - attempt, !ready
      {
        if lookup(i, attempt) {
          ready := true;
        } else {
          AppendProgress(before + [StartEvent(domain, executionId)], attempt, ProgressEvent(domain, executionId));
          events := events + [ProgressEvent(domain, executionId)];
          attempt := attempt + 1;
        }
      }

      FailuresUnique(lookup, i, attempts, attempt);
      var outcome := if ready then ReadyEvent(domain, contextId) else NotCriticalEvent(domain, executionId, contextId);
      AppendDomain(before, StartEvent(domain, executionId), seq(attempt, _ => ProgressEvent(domain, executionId)), outcome);
      events := events + [outcome];
      i := i + 1;
    }
    r := Ok(());
  }

  lemma AppendDomain(before: seq<Event>, start: Event, progress: seq<Event>, outcome: Event)
    ensures before + [start] + progress + [outcome] == before + ([start] + progress + [outcome])
  {
  }

  /** One more progress event extends the run of progress events by one. */
  lemma AppendProgress(prefix: seq<Event>, n: nat, e: Event)
    ensures prefix + seq(n, _ => e) + [e] == prefix + seq(n + 1, _ => e)
  {
    assert seq(n, _ => e) + [e] == seq(n + 1, _ => e);
  }

  /** An attempt count with the characteristic properties of `Failures` is `Failures`. */
  lemma FailuresUnique(lookup: (nat, nat) -> bool, i: nat, attempts: nat, f: nat)
    requires f <= attempts
    requires forall a :: 0 <= a < f ==> !lookup(i, a)
    requires f < attempts ==> lookup(i, f)
    ensures f == Failures(lookup, i, attempts)
  {
    FailuresSpec(lookup, i, attempts);
  }
}
