/** The persistent set of executed slots (state/store.py). */
module StateStore {
  import opened Digits
  import opened SlotKeys

  /** The history file: absent, unreadable, or holding the executed slots with the
      instant each was marked. */
  datatype File = Missing | Unreadable | Saved(executed: map<string, int>)

  predicate IsStale(key: string, threshold: string) {
    Less(DatePart(key), threshold)
  }

  function Kept(executed: map<string, int>, threshold: string): map<string, int> {
    map key | key in executed && !IsStale(key, threshold) :: executed[key]
  }

  class ExecutionStateStore {
    var file: File

    constructor (file: File)
      ensures this.file == file
    {
      this.file := file;
    }

    /** A missing or unreadable file counts as empty. */
    function Load(): map<string, int>
      reads this
    {
      if file.Saved? then file.executed else map[]
    }

    /** Whether the key is recorded. */
    method HasExecuted(key: string) returns (r: bool)
      ensures r <==> file.Saved? && key in file.executed
    {
      var executed := Load();
      r := key in executed;
    }

    /** Records the key, then drops every key dated before `today` in UTC. */
    method MarkExecuted(key: string, at: int, today: nat)
      modifies this
      ensures file == Saved(Kept(old(Load())[key := at], Iso(DateOf(today))))
    {
      var executed := Load()[key := at];
      executed := Prune(executed, Iso(DateOf(today)));
      file := Saved(executed);
    }
  }

  /** `_prune_old_entries`: lists the stale keys, then removes them one by one. */
  method Prune(executed: map<string, int>, threshold: string) returns (left: map<string, int>)
    ensures left == Kept(executed, threshold)
  {
    left := executed;
    var stale := set key | key in executed && IsStale(key, threshold);
    ghost var all := stale;
    while stale != {}
      invariant stale <= all
      invariant left == map key | key in executed && (key !in all || key in stale) :: executed[key]
      decreases stale
    {
      var key :| key in stale;
      stale := stale - {key};
      left := left - {key};
    }
  }

  /** Marking a slot keeps the record of exactly the days from `today` on, the new one
      among them. */
  lemma PruningKeepsTodayAndLater(executed: map<string, int>, s: Slot, day: nat, today: nat)
    requires DateOf(day).year <= 9999 && DateOf(today).year <= 9999
    ensures ToKey(s, day) in Kept(executed, Iso(DateOf(today))) <==> ToKey(s, day) in executed && day >= today
  {
    DatePartComparesAsDays(s, day, today);
  }
}
