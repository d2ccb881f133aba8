/** The PIN guard as it runs: records that are found, stamped and dropped in place. */
module PinGuard {
  import opened Wrappers
  import opened PinModel

  class PinState {
    var failures: nat
    var until: Option<int>
    var seen: Option<int>

    constructor ()
      ensures AsRecord() == BLANK
    {
      failures := 0;
      until := None;
      seen := None;
    }

    function AsRecord(): Record
      reads this
    {
      Record(failures, until, seen)
    }
  }

  class PINGuard {
    const maxTries: int
    const lockFor: int
    var state: map<string, PinState>

    ghost predicate Valid()
      reads this
    {
      Proper(Rules(maxTries, lockFor)) && forall j, k :: j in state && k in state && j != k ==> state[j] != state[k]
    }

    ghost function Contents(): map<string, Record>
      reads this, state.Values
    {
      map link | link in state :: state[link].AsRecord()
    }

    constructor (maxTries: int, lockFor: int)
      ensures Valid() && Contents() == map[]
      ensures this.maxTries == (if maxTries < 1 then 5 else maxTries)
      ensures this.lockFor == (if lockFor <= 0 then HOUR / 4 else lockFor)
    {
      this.maxTries := if maxTries < 1 then 5 else maxTries;
      this.lockFor := if lockFor <= 0 then HOUR / 4 else lockFor;
      state := map[];
    }

    method Locked(link: string, now: int) returns (locked: bool, remaining: int)
      requires Valid()
      ensures locked == IsLocked(Contents(), link, now) && remaining == Remaining(Contents(), link, now)
    {
      if link !in state || state[link].until.None? {
        return false, 0;
      }
      remaining := state[link].until.value - now;
      if remaining > 0 {
        return true, remaining;
      }
      return false, 0;
    }

    method Failed(link: string, now: int)
      requires Valid()
      modifies this, state.Values
      ensures Valid() && fresh(state.Values - old(state.Values))
      ensures Contents() == PinModel.Failed(Rules(maxTries, lockFor), old(Contents()), link, now)
    {
      if link in state {
        FailedAgain(link, now);
      } else {
        FailedFirst(link, now);
      }
    }

    method FailedAgain(link: string, now: int)
      requires Valid() && link in state
      modifies state[link]
      ensures Contents() == PinModel.Failed(Rules(maxTries, lockFor), old(Contents()), link, now)
    {
      Stamp(state[link], now);
    }

    /** The new record is stamped only after the sweep has seen it blank. */
    method FailedFirst(link: string, now: int)
      requires Valid() && link !in state
      modifies this`state
      ensures Valid() && fresh(state.Values - old(state.Values))
      ensures Contents() == PinModel.Failed(Rules(maxTries, lockFor), old(Contents()), link, now)
    {
      var entry := Enroll(link, now);
      StampNew(entry, link, now);
    }

    /** Stamping a record that the sweep took changes nothing anyone can see. */
    method StampNew(entry: PinState, link: string, now: int)
      requires Valid() && entry.AsRecord() == BLANK
      requires forall other :: other in state ==> (state[other] == entry <==> other == link)
      modifies entry
      ensures var stamped := Stamped(Rules(maxTries, lockFor), BLANK, now);
              Contents() == if link in state then old(Contents())[link := stamped] else old(Contents())
    {
      Stamp(entry, now);
    }

    /** A blank record goes in and the table is swept, perhaps of that very record. */
    method Enroll(link: string, now: int) returns (entry: PinState)
      requires Valid() && link !in state
      modifies this`state
      ensures Valid() && fresh(entry) && state.Values <= old(state.Values) + {entry} && entry.AsRecord() == BLANK
      ensures forall other :: other in state ==> (state[other] == entry <==> other == link)
      ensures Contents() == Swept(old(Contents())[link := BLANK], now)
    {
      entry := new PinState();
      state := state[link := entry];
      assert Contents() == old(Contents())[link := BLANK];
      SweepLocked(now);
    }

    /** The entry counts one failure more, wherever it is, or no longer is, in the table. */
    method Stamp(entry: PinState, now: int)
      requires Valid()
      modifies entry
      ensures entry.AsRecord() == Stamped(Rules(maxTries, lockFor), old(entry.AsRecord()), now)
    {
      entry.failures := entry.failures + 1;
      entry.seen := Some(now);
      if entry.failures >= maxTries {
        var rounds := entry.failures / maxTries;
        var wait := lockFor * rounds;
        if wait > LONGEST {
          wait := LONGEST;
        }
        entry.until := Some(now + wait);
      }
    }

    method Succeeded(link: string)
      requires Valid()
      modifies this`state
      ensures Valid() && state.Values <= old(state.Values)
      ensures Contents() == old(Contents()) - {link}
    {
      state := state - {link};
    }

    method SweepLocked(now: int)
      requires Valid()
      modifies this`state
      ensures Valid() && state.Keys <= old(state).Keys
      ensures forall link :: link in state ==> state[link] == old(state)[link]
      ensures Contents() == Swept(old(Contents()), now)
    {
      assert |Contents()| == |state| by { assert Contents().Keys == state.Keys; }
      if |state| < SWEEP_AT {
        return;
      }
      ghost var table := Contents();
      var links := state.Keys;
      while links != {}
        invariant links <= state.Keys <= old(state).Keys
        invariant forall link :: link in state ==> state[link] == old(state)[link]
        invariant forall link :: link in table && link !in links ==> (link in state <==> !Stale(table[link], now))
        decreases links
      {
        var link :| link in links;
        var entry := state[link];
        var idle := entry.seen.None? || now - entry.seen.value > DAY;
        if (entry.until.None? || now > entry.until.value) && idle {
          state := state - {link};
        }
        links := links - {link};
      }
      assert Contents() == Swept(table, now);
    }
  }
}
