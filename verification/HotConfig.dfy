/**
 Hot reloading of a worker's configuration file (damocles-worker/src/sealing/config.rs).

 The configuration type `T`, the content of the file `U` and the merge of the two are
 parameters, as they are of the struct HotConfig.
 */
module HotConfig {
  import opened Common

  /** The file as one check finds it.  `content` is missing when it cannot be read or parsed;
      `Unreachable` is a failing lookup that does not say the file is missing. */
  datatype Disk<+U> = Absent | Unreachable | Present(mtime: nat, content: Option<U>)

  datatype Hot<+T> = Hot(current: T, next: Option<T>, last: Option<nat>)

  datatype Change = Unchanged | Created(mtime: nat) | Deleted | Modified(mtime: nat)

  function CheckModified<U>(last: Option<nat>, disk: Disk<U>): Result<Change> {
    match disk
    case Present(mtime, _) =>
      if last.None? then Ok(Created(mtime))
      else if last.value != mtime then Ok(Modified(mtime))
      else Ok(Unchanged)
    case Absent => if last.Some? then Ok(Deleted) else Ok(Unchanged)
    case Unreachable => Err
  }

  /** The check did not fail, and neither did the load it may have caused. */
  predicate Loads<U>(last: Option<nat>, disk: Disk<U>) {
    var change := CheckModified(last, disk);
    && change.Ok?
    && (change.value.Created? || change.value.Modified? ==> disk.content.Some?)
  }

  function Loaded<T, U>(merge: (T, U) -> T, dflt: T, h: Hot<T>, disk: Disk<U>): Hot<T> {
    match CheckModified(h.last, disk)
    case Err => h
    case Ok(Unchanged) => h
    case Ok(Deleted) => h.(last := None, next := Some(dflt))
    case Ok(_) =>
      // the time is noted before the file is read
      var noted := h.(last := Some(disk.mtime));
      if disk.content.None? then noted else noted.(next := Some(merge(dflt, disk.content.value)))
  }

  /** `verdict` is the answer of the caller's function, if it gives one. */
  function Decided<T>(h: Hot<T>, verdict: Option<bool>): Hot<T> {
    if h.next.Some? && verdict == Some(true) then h.(current := h.next.value, next := None) else h
  }

  /** One call of if_modified. */
  function Round<T, U>(merge: (T, U) -> T, dflt: T, h: Hot<T>, disk: Disk<U>, verdict: Option<bool>): Hot<T> {
    var loaded := Loaded(merge, dflt, h, disk);
    if Loads(h.last, disk) then Decided(loaded, verdict) else loaded
  }

  class Config<T(==), U> {
    const dflt: T
    const merge: (T, U) -> T
    var current: T
    var next: Option<T>
    var last: Option<nat>

    function Abs(): Hot<T>
      reads this
    {
      Hot(current, next, last)
    }

    constructor (dflt: T, merge: (T, U) -> T)
      ensures this.dflt == dflt && this.merge == merge && Abs() == Hot(dflt, None, None)
    {
      this.dflt, this.merge := dflt, merge;
      current, next, last := dflt, None, None;
    }

    method TryLoad(disk: Disk<U>) returns (ok: bool)
      modifies this
      ensures ok <==> Loads(old(last), disk)
      ensures Abs() == Loaded(merge, dflt, old(Abs()), disk)
    {
      var change := CheckModified(last, disk);
      match change {
        case Err => return false;
        case Ok(Unchanged) =>
        case Ok(Deleted) =>
          last := None;
          next := Some(dflt);
        case Ok(_) =>
          last := Some(disk.mtime);
          if disk.content.None? {
            return false;
          }
          next := Some(merge(dflt, disk.content.value));
      }
      return true;
    }

    /** Offers a pending configuration to the caller and applies it if accepted. */
    method IfModified(disk: Disk<U>, verdict: Option<bool>) returns (r: Result<bool>)
      modifies this
      ensures Abs() == Round(merge, dflt, old(Abs()), disk, verdict)
      ensures r.Ok? && r.value ==> next.None?
      ensures r == Ok(false) ==> current == old(current)
      ensures r.Err? ==> current == old(current)
      ensures r.Err? <==> !Loads(old(last), disk) || (next.Some? && verdict.None?)
    {
      var ok := TryLoad(disk);
      if !ok {
        return Err;
      }
      if next.None? {
        return Ok(false);
      }
      if verdict.None? {
        return Err;
      }
      if verdict.value {
        current, next := next.value, None;
      }
      return Ok(verdict.value);
    }
  }

  // ---------------------------------------------------------------------------
  // Whole runs

  /** A call of if_modified: the file it finds, and what the caller answers if asked. */
  datatype Call<+U> = Call(disk: Disk<U>, verdict: Option<bool>)

  function Run<T, U>(merge: (T, U) -> T, dflt: T, calls: seq<Call<U>>, n: nat): Hot<T>
    requires n <= |calls|
  {
    if n == 0 then Hot(dflt, None, None)
    else Round(merge, dflt, Run(merge, dflt, calls, n - 1), calls[n - 1].disk, calls[n - 1].verdict)
  }

  /** The configuration the file stands for. */
  function Wanted<T, U>(merge: (T, U) -> T, dflt: T, disk: Disk<U>): T {
    if disk.Present? && disk.content.Some? then merge(dflt, disk.content.value) else dflt
  }

  /** The configuration on offer, or already applied. */
  function Newest<T>(h: Hot<T>): T {
    if h.next.Some? then h.next.value else h.current
  }

  /** The file as of the last load that succeeded before call `n`: at first, none. */
  function LastLoaded<T, U>(merge: (T, U) -> T, dflt: T, calls: seq<Call<U>>, n: nat): Disk<U>
    requires n <= |calls|
  {
    if n == 0 then Absent
    else
      var last := Run(merge, dflt, calls, n - 1).last;
      if Loads(last, calls[n - 1].disk) && CheckModified(last, calls[n - 1].disk) != Ok(Unchanged)
      then calls[n - 1].disk
      else LastLoaded(merge, dflt, calls, n - 1)
  }

  /** In every run, whatever fails, the newest configuration is the one of the last file loaded. */
  lemma {:induction false} NewestIsLastLoaded<T, U>(merge: (T, U) -> T, dflt: T, calls: seq<Call<U>>, n: nat)
    requires n <= |calls|
    ensures Newest(Run(merge, dflt, calls, n)) == Wanted(merge, dflt, LastLoaded(merge, dflt, calls, n))
  {
    if n > 0 {
      NewestIsLastLoaded(merge, dflt, calls, n - 1);
    }
  }

  predicate Readable<U>(disk: Disk<U>) {
    disk.Absent? || (disk.Present? && disk.content.Some?)
  }

  /** Two files that can be read and have the same modification time are the same. */
  ghost predicate SameIfSameTime<U>(a: Disk<U>, b: Disk<U>) {
    a.Present? && b.Present? && Readable(a) && Readable(b) && a.mtime == b.mtime ==> a == b
  }

  /** The file whose time was noted last before call `n`, whether or not it could be read. */
  function LastNoted<T, U>(merge: (T, U) -> T, dflt: T, calls: seq<Call<U>>, n: nat): Disk<U>
    requires n <= |calls|
  {
    if n == 0 then Absent
    else
      var change := CheckModified(Run(merge, dflt, calls, n - 1).last, calls[n - 1].disk);
      if change.Ok? && !change.value.Unchanged? then calls[n - 1].disk else LastNoted(merge, dflt, calls, n - 1)
  }

  /** What the remembered time says about a file. */
  ghost predicate Remembers<U>(last: Option<nat>, noted: Disk<U>) {
    if last.None? then noted == Absent else noted.Present? && noted.mtime == last.value
  }

  lemma {:induction false} TimeIsOfLastNoted<T, U>(merge: (T, U) -> T, dflt: T, calls: seq<Call<U>>, n: nat)
    requires n <= |calls|
    ensures var noted := LastNoted(merge, dflt, calls, n);
            && Remembers(Run(merge, dflt, calls, n).last, noted)
            && (noted.Present? ==> exists i :: 0 <= i < n && calls[i].disk == noted)
            && (Readable(noted) ==> LastLoaded(merge, dflt, calls, n) == noted)
  {
    if n > 0 {
      TimeIsOfLastNoted(merge, dflt, calls, n - 1);
    }
  }

  /** After every call that finds a file it can read, or none, and if the load that noted the
      file's time did not fail, the newest configuration is that of the noted file. */
  lemma NewestIsNotedFile<T, U>(merge: (T, U) -> T, dflt: T, calls: seq<Call<U>>, n: nat)
    requires 0 < n <= |calls|
    requires Readable(calls[n - 1].disk) && Readable(LastNoted(merge, dflt, calls, n))
    ensures var disk, noted := calls[n - 1].disk, LastNoted(merge, dflt, calls, n);
            && Newest(Run(merge, dflt, calls, n)) == Wanted(merge, dflt, noted)
            && disk.Present? == noted.Present?
            && (disk.Present? ==> disk.mtime == noted.mtime)
  {
    NewestIsLastLoaded(merge, dflt, calls, n);
    TimeIsOfLastNoted(merge, dflt, calls, n);
    SeenTime(merge, dflt, Run(merge, dflt, calls, n - 1), calls[n - 1]);
  }

  /** So it is the one the file stands for now, as long as the file has not changed since it was
      noted without changing its time.  Times may go back and forth otherwise. */
  lemma NewestIsPresentFile<T, U>(merge: (T, U) -> T, dflt: T, calls: seq<Call<U>>, n: nat)
    requires 0 < n <= |calls|
    requires Readable(calls[n - 1].disk) && Readable(LastNoted(merge, dflt, calls, n))
    requires SameIfSameTime(LastNoted(merge, dflt, calls, n), calls[n - 1].disk)
    ensures Newest(Run(merge, dflt, calls, n)) == Wanted(merge, dflt, calls[n - 1].disk)
  {
    NewestIsNotedFile(merge, dflt, calls, n);
  }

  /** When that load did fail, the newest configuration is still the one of an earlier load. */
  lemma {:induction false} FailedLoadLeavesNewest<T, U>(merge: (T, U) -> T, dflt: T, calls: seq<Call<U>>, n: nat)
    requires n <= |calls| && !Readable(LastNoted(merge, dflt, calls, n))
    ensures exists k :: 0 <= k < n && calls[k].disk == LastNoted(merge, dflt, calls, n)
                        && Newest(Run(merge, dflt, calls, n)) == Newest(Run(merge, dflt, calls, k))
  {
    var change := CheckModified(Run(merge, dflt, calls, n - 1).last, calls[n - 1].disk);
    if change.Err? || change.value.Unchanged? {
      FailedLoadLeavesNewest(merge, dflt, calls, n - 1);
    }
  }

  /** A call that finds the file in reach remembers its time, or that it is gone. */
  lemma SeenTime<T, U>(merge: (T, U) -> T, dflt: T, h: Hot<T>, call: Call<U>)
    requires call.disk != Unreachable
    ensures Round(merge, dflt, h, call.disk, call.verdict).last
         == if call.disk.Present? then Some(call.disk.mtime) else None
  {
  }

  /** An accepted update puts the present file into force; a refused one changes nothing in
      force and stays on offer. */
  lemma AcceptedIsPresentFile<T, U>(merge: (T, U) -> T, dflt: T, calls: seq<Call<U>>, n: nat)
    requires 0 < n <= |calls|
    requires Readable(calls[n - 1].disk) && Readable(LastNoted(merge, dflt, calls, n))
    requires SameIfSameTime(LastNoted(merge, dflt, calls, n), calls[n - 1].disk)
    ensures var before, after := Run(merge, dflt, calls, n - 1), Run(merge, dflt, calls, n);
            && (after.next.None? ==> after.current == Wanted(merge, dflt, calls[n - 1].disk))
            && (calls[n - 1].verdict == Some(true) ==> after.next.None?)
            && (calls[n - 1].verdict != Some(true) ==>
                  after.current == before.current && (before.next.Some? ==> after.next.Some?))
            && (after.next.Some? ==> after.next.value == Wanted(merge, dflt, calls[n - 1].disk))
  {
    NewestIsPresentFile(merge, dflt, calls, n);
  }

  /** A configuration that comes from the defaults or from a file that was once on disk. */
  ghost predicate Genuine<T, U(!new)>(merge: (T, U) -> T, dflt: T, calls: seq<Call<U>>, n: nat, cfg: T)
    requires n <= |calls|
  {
    cfg == dflt || exists i :: 0 <= i < n && Offers(merge, dflt, calls[i].disk, cfg)
  }

  ghost predicate Offers<T, U>(merge: (T, U) -> T, dflt: T, disk: Disk<U>, cfg: T) {
    disk.Present? && disk.content.Some? && cfg == merge(dflt, disk.content.value)
  }

  /** In every run, whatever fails, only such configurations are in force or on offer. */
  lemma {:induction false} OnlyGenuineConfigs<T, U(!new)>(merge: (T, U) -> T, dflt: T, calls: seq<Call<U>>, n: nat)
    requires n <= |calls|
    ensures var h := Run(merge, dflt, calls, n);
            && Genuine(merge, dflt, calls, n, h.current)
            && (h.next.Some? ==> Genuine(merge, dflt, calls, n, h.next.value))
  {
    if n > 0 {
      OnlyGenuineConfigs(merge, dflt, calls, n - 1);
      GenuineNext(merge, dflt, calls, n - 1, Run(merge, dflt, calls, n - 1));
    }
  }

  lemma GenuineNext<T, U(!new)>(merge: (T, U) -> T, dflt: T, calls: seq<Call<U>>, n: nat, h: Hot<T>)
    requires n < |calls| && Genuine(merge, dflt, calls, n, h.current)
    requires h.next.Some? ==> Genuine(merge, dflt, calls, n, h.next.value)
    ensures var h' := Round(merge, dflt, h, calls[n].disk, calls[n].verdict);
            && Genuine(merge, dflt, calls, n + 1, h'.current)
            && (h'.next.Some? ==> Genuine(merge, dflt, calls, n + 1, h'.next.value))
  {
    var disk := calls[n].disk;
    if disk.Present? && disk.content.Some? {
      assert Offers(merge, dflt, disk, merge(dflt, disk.content.value));
    }
  }

  /** A failed read is not tried again: as long as the file keeps its time, its content is not
      loaded, though it could be read by now. */
  lemma FailedReadIsNotRetried<T, U>(merge: (T, U) -> T, dflt: T, h: Hot<T>, mtime: nat, content: U, verdict: Option<bool>)
    requires h.last != Some(mtime)
    ensures var failed := Round(merge, dflt, h, Present(mtime, None), verdict);
            && failed == h.(last := Some(mtime))
            && Newest(Round(merge, dflt, failed, Present(mtime, Some(content)), verdict)) == Newest(h)
  {
  }
}
