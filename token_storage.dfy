/**
 * The credential store of the API client: one `auth_token` slot in the platform's secure
 * store and one in the plain key-value store used as a fallback, chosen through an
 * availability flag that is probed at most once.
 *
 * The storage back ends are not modelled; each call says, through a `Probe` and a `Faults`
 * value, what the probe reports and which of the two stores throws during that call.
 */
module TokenStorage {
  import opened Wrappers

  /** What the secure store's availability probe does when it is asked. */
  datatype Probe = Reports(available: bool) | ProbeThrows

  /** Whether the secure-store call and the fallback call made by one operation throw. */
  datatype Faults = Faults(secureFails: bool, fallbackFails: bool)

  const NoFaults := Faults(false, false)

  /** The client module's storage state: the cached availability flag and the two slots. */
  datatype Slots = Slots(availability: Option<bool>, secure: Option<string>, fallback: Option<string>)

  /** The outcome of `setToken`: the new slots, and whether the call resolved (`false`: it
      rejected with the fallback's error). */
  datatype SetOutcome = SetOutcome(slots: Slots, stored: bool)

  /** `ensureSecureStoreAvailability`: the cached flag when there is one; otherwise `false` on
      the web, else what the probe reports, `false` when the probe throws. */
  function DecideAvailability(cached: Option<bool>, isWeb: bool, probe: Probe): (available: bool)
    ensures cached.Some? ==> available == cached.value
    ensures cached.None? && isWeb ==> !available
    ensures cached.None? && probe.ProbeThrows? ==> !available
    ensures available ==> cached == Some(true) || (!isWeb && probe == Reports(true))
  {
    if cached.Some? then cached.value
    else if isWeb then false
    else match probe
      case Reports(a) => a
      case ProbeThrows => false
  }

  /** The slots once the availability flag has been decided. */
  function Decided(s: Slots, isWeb: bool, probe: Probe): (d: Slots)
    ensures d.availability.Some? && d.secure == s.secure && d.fallback == s.fallback
  {
    s.(availability := Some(DecideAvailability(s.availability, isWeb, probe)))
  }

  /** Whether an operation goes to the secure store first. */
  predicate UsesSecure(s: Slots, isWeb: bool, probe: Probe) {
    DecideAvailability(s.availability, isWeb, probe)
  }

  /** `getToken`: the secure slot when the store is available and its read succeeds;
      otherwise the fallback slot, or nothing when the fallback read throws too. */
  function ReadOutcome(s: Slots, isWeb: bool, probe: Probe, faults: Faults): (token: Option<string>)
    ensures token.Some? ==> token == s.secure || token == s.fallback
    ensures UsesSecure(s, isWeb, probe) && !faults.secureFails ==> token == s.secure
    ensures (!UsesSecure(s, isWeb, probe) || faults.secureFails) && !faults.fallbackFails ==> token == s.fallback
    ensures (!UsesSecure(s, isWeb, probe) || faults.secureFails) && faults.fallbackFails ==> token.None?
  {
    if UsesSecure(s, isWeb, probe) && !faults.secureFails then s.secure
    else if faults.fallbackFails then None
    else s.fallback
  }

  /** `setToken`: a write to the secure slot when it is available and the write succeeds,
      otherwise a write to the fallback slot; only a failed fallback write rejects. */
  function AfterSet(s: Slots, isWeb: bool, probe: Probe, faults: Faults, token: string): (w: SetOutcome)
    ensures w.slots.availability == Decided(s, isWeb, probe).availability
    ensures !w.stored <==> (!UsesSecure(s, isWeb, probe) || faults.secureFails) && faults.fallbackFails
    ensures !w.stored ==> w.slots == Decided(s, isWeb, probe)
    ensures UsesSecure(s, isWeb, probe) && !faults.secureFails ==>
      w == SetOutcome(Decided(s, isWeb, probe).(secure := Some(token)), true)
    ensures (!UsesSecure(s, isWeb, probe) || faults.secureFails) && !faults.fallbackFails ==>
      w == SetOutcome(Decided(s, isWeb, probe).(fallback := Some(token)), true)
    ensures w.slots.secure != s.secure ==> UsesSecure(s, isWeb, probe)
  {
    var d := Decided(s, isWeb, probe);
    if UsesSecure(s, isWeb, probe) && !faults.secureFails then SetOutcome(d.(secure := Some(token)), true)
    else if faults.fallbackFails then SetOutcome(d, false)
    else SetOutcome(d.(fallback := Some(token)), true)
  }

  /** `deleteToken`: clears the secure slot when it is available and the delete succeeds,
      otherwise the fallback slot; a failing fallback delete is swallowed, so the result is
      always a new state and never an error. */
  function AfterDelete(s: Slots, isWeb: bool, probe: Probe, faults: Faults): (r: Slots)
    ensures r.availability == Decided(s, isWeb, probe).availability
    ensures UsesSecure(s, isWeb, probe) && !faults.secureFails ==>
      r == Decided(s, isWeb, probe).(secure := None)
    ensures (!UsesSecure(s, isWeb, probe) || faults.secureFails) && !faults.fallbackFails ==>
      r == Decided(s, isWeb, probe).(fallback := None)
    ensures (!UsesSecure(s, isWeb, probe) || faults.secureFails) && faults.fallbackFails ==>
      r == Decided(s, isWeb, probe)
    ensures r.secure != s.secure ==> UsesSecure(s, isWeb, probe)
  {
    var d := Decided(s, isWeb, probe);
    if UsesSecure(s, isWeb, probe) && !faults.secureFails then d.(secure := None)
    else if faults.fallbackFails then d
    else d.(fallback := None)
  }

  /** On the web the flag can only ever be `false`: the cache never says the secure store is
      available. */
  predicate WebNeverSecure(s: Slots, isWeb: bool) {
    isWeb ==> s.availability != Some(true)
  }

  /** Once decided, the flag is never re-probed: every later decision returns it whatever
      the probe would now say, and no operation changes it. */
  lemma AvailabilityDecidedOnce(s: Slots, isWeb: bool, first: Probe, later: Probe, faults: Faults, token: string)
    ensures var d := Decided(s, isWeb, first);
      && DecideAvailability(d.availability, isWeb, later) == DecideAvailability(s.availability, isWeb, first)
      && Decided(d, isWeb, later) == d
      && AfterSet(d, isWeb, later, faults, token).slots.availability == d.availability
      && AfterDelete(d, isWeb, later, faults).availability == d.availability
  {
  }

  /** A delete after the flag was decided with the same probe ends as a delete that decides
      it itself. */
  lemma DeleteAfterDecide(s: Slots, isWeb: bool, probe: Probe, faults: Faults)
    ensures AfterDelete(Decided(s, isWeb, probe), isWeb, probe, faults) == AfterDelete(s, isWeb, probe, faults)
  {
  }

  /** Every operation keeps the web invariant, and on the web the secure slot is neither read
      nor written. */
  lemma WebUsesFallbackOnly(s: Slots, probe: Probe, faults: Faults, token: string)
    requires WebNeverSecure(s, true)
    ensures !UsesSecure(s, true, probe)
    ensures WebNeverSecure(Decided(s, true, probe), true)
    ensures AfterSet(s, true, probe, faults, token).slots.secure == s.secure
    ensures AfterDelete(s, true, probe, faults).secure == s.secure
    ensures !faults.fallbackFails ==> ReadOutcome(s, true, probe, faults) == s.fallback
  {
  }

  /** What a later read sees after a write, under any faults of either call. A stored token
      is read back whenever the write met no secure fault and the read no fault at all, and
      always when the secure store is unused and the fallback read succeeds. A failed secure
      write leaves the secure slot, which a successful secure read still returns. A rejected
      write leaves every read as it was. */
  lemma SetThenGet(s: Slots, isWeb: bool, p1: Probe, p2: Probe, writeFaults: Faults, readFaults: Faults,
                   token: string)
    ensures var w := AfterSet(s, isWeb, p1, writeFaults, token);
      var later := ReadOutcome(w.slots, isWeb, p2, readFaults);
      && (writeFaults == NoFaults ==> w.stored)
      && (w.stored && !writeFaults.secureFails && readFaults == NoFaults ==> later == Some(token))
      && (w.stored && !UsesSecure(s, isWeb, p1) && !readFaults.fallbackFails ==> later == Some(token))
      && (UsesSecure(s, isWeb, p1) && writeFaults.secureFails && !readFaults.secureFails ==> later == s.secure)
      && (!w.stored ==> later == ReadOutcome(s, isWeb, p1, readFaults))
  {
  }

  /** What a later read sees after a delete, under any faults of either call. The token is
      gone after a successful secure delete read back without a secure fault, and after a
      successful fallback delete when the secure store is unused. A failed secure delete
      leaves the secure token readable; when both deletes fail, every read is as before. */
  lemma DeleteThenGet(s: Slots, isWeb: bool, p1: Probe, p2: Probe, deleteFaults: Faults, readFaults: Faults)
    ensures var d := AfterDelete(s, isWeb, p1, deleteFaults);
      var later := ReadOutcome(d, isWeb, p2, readFaults);
      && (UsesSecure(s, isWeb, p1) && !deleteFaults.secureFails && !readFaults.secureFails ==> later.None?)
      && (!UsesSecure(s, isWeb, p1) && !deleteFaults.fallbackFails ==> later.None?)
      && (deleteFaults == NoFaults && readFaults == NoFaults ==> later.None?)
      && (UsesSecure(s, isWeb, p1) && deleteFaults.secureFails && !readFaults.secureFails ==> later == s.secure)
      && ((!UsesSecure(s, isWeb, p1) || deleteFaults.secureFails) && deleteFaults.fallbackFails ==>
            later == ReadOutcome(s, isWeb, p1, readFaults))
  {
  }

  /** A secure write that fails lands in the fallback slot and `setToken` resolves, yet the
      next read goes to the secure store first and returns the token stored there before. */
  lemma StaleReadAfterSecureWriteFailure()
    ensures var s := Slots(Some(true), Some("old"), None);
      var w := AfterSet(s, false, ProbeThrows, Faults(true, false), "new");
      && w.stored
      && w.slots.fallback == Some("new")
      && ReadOutcome(w.slots, false, ProbeThrows, NoFaults) == Some("old")
  {
  }

  /** A secure delete that fails clears the fallback slot instead, so the token stays in the
      secure slot and the next fault-free read still returns it. */
  lemma DeleteCanLeaveTokenReadable()
    ensures var s := Slots(Some(true), Some("t"), None);
      ReadOutcome(AfterDelete(s, false, ProbeThrows, Faults(true, false)), false, ProbeThrows, NoFaults) == Some("t")
  {
  }

  /**
   * The module-level state of the client: the availability cache (`null` at start-up) and
   * the two persistent `auth_token` slots.
   */
  class CredentialStore {
    const isWeb: bool
    var availability: Option<bool>
    var secure: Option<string>
    var fallback: Option<string>

    function State(): Slots
      reads this
    {
      Slots(availability, secure, fallback)
    }

    predicate Valid()
      reads this
    {
      WebNeverSecure(State(), isWeb)
    }

    /** Start-up: nothing is cached; the slots hold whatever earlier runs left there. */
    constructor(isWeb: bool, secure: Option<string>, fallback: Option<string>)
      ensures this.isWeb == isWeb
      ensures State() == Slots(None, secure, fallback)
      ensures Valid()
    {
      this.isWeb := isWeb;
      this.availability := None;
      this.secure := secure;
      this.fallback := fallback;
    }

    /** `ensureSecureStoreAvailability`. */
    method EnsureAvailability(probe: Probe) returns (available: bool)
      requires Valid()
      modifies this
      ensures Valid()
      ensures available == DecideAvailability(old(availability), isWeb, probe)
      ensures State() == Decided(old(State()), isWeb, probe)
    {
      if availability.Some? {
        return availability.value;
      }
      if isWeb {
        availability := Some(false);
        return false;
      }
      match probe {
        case Reports(a) => available := a;
        case ProbeThrows => available := false;
      }
      availability := Some(available);
    }

    /** `getToken`: never throws; a failing fallback read yields no token. */
    method GetToken(probe: Probe, faults: Faults) returns (token: Option<string>)
      requires Valid()
      modifies this
      ensures Valid()
      ensures token == ReadOutcome(old(State()), isWeb, probe, faults)
      ensures State() == Decided(old(State()), isWeb, probe)
    {
      var canUseSecure := EnsureAvailability(probe);
      if !canUseSecure || faults.secureFails {
        token := if faults.fallbackFails then None else fallback;
      } else {
        token := secure;
      }
    }

    /** `setToken`: `stored` is `false` exactly when the call rejects. */
    method SetToken(probe: Probe, faults: Faults, token: string) returns (stored: bool)
      requires Valid()
      modifies this
      ensures Valid()
      ensures State() == AfterSet(old(State()), isWeb, probe, faults, token).slots
      ensures stored == AfterSet(old(State()), isWeb, probe, faults, token).stored
    {
      var canUseSecure := EnsureAvailability(probe);
      if canUseSecure && !faults.secureFails {
        secure := Some(token);
        stored := true;
      } else if faults.fallbackFails {
        stored := false;
      } else {
        fallback := Some(token);
        stored := true;
      }
    }

    /** `deleteToken`: has no failure outcome. */
    method DeleteToken(probe: Probe, faults: Faults)
      requires Valid()
      modifies this
      ensures Valid()
      ensures State() == AfterDelete(old(State()), isWeb, probe, faults)
    {
      var canUseSecure := EnsureAvailability(probe);
      if canUseSecure && !faults.secureFails {
        secure := None;
      } else if !faults.fallbackFails {
        fallback := None;
      }
    }
  }
}
