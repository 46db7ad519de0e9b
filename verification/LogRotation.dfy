/** The rotating log file (app/logger.py). Contents are sequences of bytes, a line
    including its newline. */
module LogRotation {
  import opened Wrappers

  type Bytes = seq<bv8>

  /** The log as a value: backups newest first, `.1` at index 0, and the live file. */
  datatype Log = Log(backups: seq<Bytes>, live: Option<Bytes>)

  const EMPTY := Log([], None)

  function AtLeast(n: int, low: nat): nat {
    if n > low then n else low
  }

  predicate IsFull(log: Log, maxBytes: int) {
    log.live.Some? && |log.live.value| >= maxBytes
  }

  /** `_rotate_if_needed`: the live file becomes the newest backup and the oldest is
      dropped when there are `backupCount` already (one is always kept). */
  function Rotate(log: Log, maxBytes: int, backupCount: int): Log {
    if !IsFull(log, maxBytes) then log
    else
      var all := [log.live.value] + log.backups;
      Log(if |all| > AtLeast(backupCount, 1) then all[..AtLeast(backupCount, 1)] else all, None)
  }

  /** `_log`. */
  function Write(log: Log, line: Bytes, maxBytes: int, backupCount: int): Log {
    var rotated := Rotate(log, maxBytes, backupCount);
    rotated.(live := Some(rotated.live.GetOr([]) + line))
  }

  function WriteAll(lines: seq<Bytes>, maxBytes: int, backupCount: int): Log {
    if lines == [] then EMPTY
    else Write(WriteAll(lines[..|lines| - 1], maxBytes, backupCount), lines[|lines| - 1], maxBytes, backupCount)
  }

  function Concat(lines: seq<Bytes>): Bytes {
    if lines == [] then [] else Concat(lines[..|lines| - 1]) + lines[|lines| - 1]
  }

  /** The backups from oldest to newest. */
  function Oldest(backups: seq<Bytes>): Bytes {
    if backups == [] then [] else Oldest(backups[1..]) + backups[0]
  }

  /** Backups oldest to newest, then the live file. */
  function Retained(log: Log): Bytes {
    Oldest(log.backups) + log.live.GetOr([])
  }

  predicate AllAtMost(files: seq<Bytes>, n: int) {
    forall i :: 0 <= i < |files| ==> |files[i]| <= n
  }

  /** The log is what is left of `written` after `lost` was dropped from its front: at
      most `backupCount` backups, each holding at least `maxBytes`; every file at most
      one line over `maxBytes`; and nothing is lost before all backups are in use. */
  ghost predicate Faithful(log: Log, written: Bytes, lost: Bytes, maxBytes: int, backupCount: int, longest: nat) {
    && written == lost + Retained(log)
    && |log.backups| <= AtLeast(backupCount, 1)
    && (forall i :: 0 <= i < |log.backups| ==> |log.backups[i]| >= maxBytes)
    && AllAtMost(log.backups, AtLeast(maxBytes - 1, 0) + longest)
    && (log.live.Some? ==> |log.live.value| <= AtLeast(maxBytes - 1, 0) + longest)
    && (lost != [] ==> |log.backups| == AtLeast(backupCount, 1))
  }

  lemma {:induction false} OldestSplits(backups: seq<Bytes>, k: nat)
    requires k <= |backups|
    ensures Oldest(backups) == Oldest(backups[k..]) + Oldest(backups[..k])
  {
    if k == 0 {
      assert backups[0..] == backups;
    } else {
      OldestSplits(backups[1..], k - 1);
      assert backups[1..][k - 1..] == backups[k..];
      assert backups[..k][1..] == backups[1..][..k - 1];
    }
  }

  /** A rotation drops the oldest backup or nothing. */
  lemma RotateIsFaithful(log: Log, written: Bytes, lost: Bytes, maxBytes: int, backupCount: int, longest: nat)
    returns (lost': Bytes)
    requires Faithful(log, written, lost, maxBytes, backupCount, longest)
    ensures var log' := Rotate(log, maxBytes, backupCount);
            && Faithful(log', written, lost', maxBytes, backupCount, longest)
            && (log'.live.Some? ==> log'.live == log.live && !IsFull(log, maxBytes))
  {
    lost' := lost;
    if IsFull(log, maxBytes) {
      var all, cap := [log.live.value] + log.backups, AtLeast(backupCount, 1);
      assert all[1..] == log.backups;
      assert Oldest(all) == Retained(log);
      if |all| > cap {
        OldestSplits(all, cap);
        lost' := lost + Oldest(all[cap..]);
      }
    }
  }

  lemma WriteIsFaithful(log: Log, line: Bytes, written: Bytes, lost: Bytes, maxBytes: int, backupCount: int,
                        longest: nat) returns (lost': Bytes)
    requires Faithful(log, written, lost, maxBytes, backupCount, longest) && |line| <= longest
    ensures Faithful(Write(log, line, maxBytes, backupCount), written + line, lost', maxBytes, backupCount, longest)
  {
    lost' := RotateIsFaithful(log, written, lost, maxBytes, backupCount, longest);
    var rotated := Rotate(log, maxBytes, backupCount);
    assert written + line == lost' + (Oldest(rotated.backups) + (rotated.live.GetOr([]) + line));
  }

  /** After any sequence of writes from no files, what the files hold, oldest backup
      first, is a suffix of everything written, within the bounds of `Faithful`. */
  lemma {:induction false} RotationLosesOnlyTheOldest(lines: seq<Bytes>, maxBytes: int, backupCount: int,
                                                      longest: nat) returns (lost: Bytes)
    requires AllAtMost(lines, longest)
    ensures Faithful(WriteAll(lines, maxBytes, backupCount), Concat(lines), lost, maxBytes, backupCount, longest)
  {
    if lines == [] {
      lost := [];
    } else {
      var n := |lines| - 1;
      var before := RotationLosesOnlyTheOldest(lines[..n], maxBytes, backupCount, longest);
      lost := WriteIsFaithful(WriteAll(lines[..n], maxBytes, backupCount), lines[n], Concat(lines[..n]), before,
                              maxBytes, backupCount, longest);
    }
  }

  lemma {:induction false} BackupsHold(backups: seq<Bytes>, maxBytes: int)
    requires maxBytes >= 0 && forall i :: 0 <= i < |backups| ==> |backups[i]| >= maxBytes
    ensures |Oldest(backups)| >= |backups| * maxBytes
  {
    if backups != [] {
      BackupsHold(backups[1..], maxBytes);
      assert |backups| * maxBytes == (|backups| - 1) * maxBytes + maxBytes;
    }
  }

  /** Either everything written is still there, or at least `backupCount * maxBytes`
      bytes of its end are. */
  lemma RotationRetainsEnough(lines: seq<Bytes>, maxBytes: int, backupCount: int, longest: nat)
    requires AllAtMost(lines, longest) && maxBytes >= 0
    ensures var kept := Retained(WriteAll(lines, maxBytes, backupCount));
            kept == Concat(lines) || |kept| >= AtLeast(backupCount, 1) * maxBytes
  {
    var lost := RotationLosesOnlyTheOldest(lines, maxBytes, backupCount, longest);
    var log := WriteAll(lines, maxBytes, backupCount);
    if lost == [] {
      assert lost + Retained(log) == Retained(log);
    } else {
      BackupsHold(log.backups, maxBytes);
    }
  }

  // ---------------------------------------------------------------- the files

  /** Backups are numbered 1, 2, ..., n without gaps. */
  ghost predicate Numbered(backups: map<int, Bytes>, n: nat) {
    forall i :: i in backups <==> 1 <= i <= n
  }

  function Numbers(n: nat): (r: set<int>)
    ensures |r| == n && forall i :: i in r <==> 1 <= i <= n
  {
    if n == 0 then {} else Numbers(n - 1) + {n}
  }

  lemma NumberedSize(backups: map<int, Bytes>, n: nat)
    requires Numbered(backups, n)
    ensures |backups| == n
  {
    assert backups.Keys == Numbers(n);
  }

  function InOrder(backups: map<int, Bytes>): seq<Bytes> {
    seq(|backups|, i => if i + 1 in backups then backups[i + 1] else [])
  }

  /** While renaming from the oldest down: numbers up to `k` are as in `before`, those
      from `k + 2` on hold the backup that was one below, and `k + 1` is free, unless it
      is the last number and not yet reached. */
  ghost predicate Shifting(before: map<int, Bytes>, now: map<int, Bytes>, n: nat, k: nat, cap: int)
    requires Numbered(before, n)
  {
    && (forall i :: i in now <==>
          || (1 <= i <= k && i <= n)
          || (k + 2 <= i <= cap && i - 1 <= n)
          || (i == k + 1 == cap && i <= n))
    && (forall i :: 1 <= i <= k && i <= n ==> now[i] == before[i])
    && (forall i :: k + 2 <= i <= cap && i - 1 <= n ==> now[i] == before[i - 1])
  }

  lemma ShiftOne(before: map<int, Bytes>, now: map<int, Bytes>, n: nat, k: nat, cap: int)
    requires Numbered(before, n) && n <= cap && 1 <= k < cap && Shifting(before, now, n, k, cap)
    ensures k in now <==> k <= n
    ensures k in now ==> Shifting(before, (now - {k + 1})[k + 1 := now[k]] - {k}, n, k - 1, cap)
    ensures k !in now ==> Shifting(before, now, n, k - 1, cap)
  {
  }

  lemma ShiftDone(before: map<int, Bytes>, now: map<int, Bytes>, n: nat, cap: int, live: Bytes)
    requires Numbered(before, n) && |before| == n <= cap && 1 <= cap && Shifting(before, now, n, 0, cap)
    ensures var after, m := (now - {1})[1 := live], if n + 1 <= cap then n + 1 else cap;
            && Numbered(after, m) && |after| == m
            && InOrder(after) == ([live] + InOrder(before))[..m]
  {
    var after, m := (now - {1})[1 := live], if n + 1 <= cap then n + 1 else cap;
    NumberedSize(after, m);
    forall i | 0 <= i < m ensures InOrder(after)[i] == ([live] + InOrder(before))[i] {
      if i > 0 { assert i + 1 in after && now[i + 1] == before[i]; }
    }
  }

  /** With all renamed, the live file becoming backup 1 completes the rotation. */
  lemma ShiftRotates(before: map<int, Bytes>, now: map<int, Bytes>, n: nat, live: Bytes, maxBytes: int,
                     backupCount: int)
    requires Numbered(before, n) && |before| == n <= AtLeast(backupCount, 1)
    requires Shifting(before, now, n, 0, AtLeast(backupCount, 1)) && |live| >= maxBytes
    ensures var after := (now - {1})[1 := live];
            && |after| <= AtLeast(backupCount, 1) && Numbered(after, |after|)
            && Log(InOrder(after), None) == Rotate(Log(InOrder(before), Some(live)), maxBytes, backupCount)
  {
    ShiftDone(before, now, n, AtLeast(backupCount, 1), live);
    assert ([live] + InOrder(before))[..n + 1] == [live] + InOrder(before);
  }

  /** The files by name: the live one, and the backup with suffix `.i` under `i`. */
  class Logger {
    const maxBytes: int
    const backupCount: int
    var live: Option<Bytes>
    var backups: map<int, Bytes>

    ghost predicate Valid()
      reads this
    {
      |backups| <= AtLeast(backupCount, 1) && Numbered(backups, |backups|)
    }

    function Contents(): Log
      reads this
    {
      Log(InOrder(backups), live)
    }

    constructor (maxBytes: int, backupCount: int)
      ensures Valid() && Contents() == EMPTY
      ensures this.maxBytes == maxBytes && this.backupCount == backupCount
    {
      this.maxBytes, this.backupCount := maxBytes, backupCount;
      live, backups := None, map[];
    }

    /** `_rotate_if_needed`: renames from the oldest backup down. */
    method RotateIfNeeded()
      requires Valid()
      modifies this
      ensures Valid() && Contents() == Rotate(old(Contents()), maxBytes, backupCount)
    {
      if live.None? || |live.value| < maxBytes { return; }
      ghost var before, n, cap := backups, |backups|, AtLeast(backupCount, 1);
      var index := backupCount - 1;
      while index > 0
        invariant AtLeast(index, 0) < cap && live == old(live)
        invariant Numbered(before, n) && Shifting(before, backups, n, AtLeast(index, 0), cap)
        decreases index
      {
        ShiftOne(before, backups, n, index, cap);
        if index in backups {
          backups := backups - {index + 1};
          backups := backups[index + 1 := backups[index]] - {index};
        }
        index := index - 1;
      }
      ShiftRotates(before, backups, n, live.value, maxBytes, backupCount);
      backups := backups - {1};
      backups := backups[1 := live.value];
      live := None;
    }

    /** `_log`, when a log file is configured. */
    method Append(line: Bytes)
      requires Valid()
      modifies this
      ensures Valid() && Contents() == Write(old(Contents()), line, maxBytes, backupCount)
    {
      RotateIfNeeded();
      live := Some((if live.Some? then live.value else []) + line);
    }
  }

  /** Any sequence of writes on a new logger. */
  method WriteLines(lines: seq<Bytes>, maxBytes: int, backupCount: int) returns (log: Log)
    ensures log == WriteAll(lines, maxBytes, backupCount)
  {
    var logger := new Logger(maxBytes, backupCount);
    for i := 0 to |lines|
      invariant logger.Valid() && logger.maxBytes == maxBytes && logger.backupCount == backupCount
      invariant fresh(logger) && logger.Contents() == WriteAll(lines[..i], maxBytes, backupCount)
    {
      assert lines[..i + 1][..i] == lines[..i];
      logger.Append(lines[i]);
    }
    assert lines[..|lines|] == lines;
    log := logger.Contents();
  }
}
