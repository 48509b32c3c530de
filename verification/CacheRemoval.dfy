/** Scanning the cache bucket and removing exactly the frozen plan. */
module CacheRemoval {
  import opened Wrappers
  import opened Crc
  import opened Sorting
  import opened CacheNames
  import opened CacheFile

  const MAX_ENTRIES: nat := 65_536
  const MAX_SCAN_BYTES: nat := 2 * 1024 * 1024 * 1024

  datatype Identity = Identity(device: nat, inode: nat, length: nat, modified: (int, int), changed: (int, int))

  datatype Meta = Meta(identity: Identity, regular: bool, owned: bool, links: nat, othersMayWrite: bool)

  predicate SafeFile(m: Meta) { m.regular && m.owned && m.links == 1 && !m.othersMayWrite }

  datatype Entry = Entry(name: Name, identity: Identity)

  /** One opened file: its metadata before and after its contents are read. */
  datatype Handle = Handle(meta: Option<Meta>, script: Script, after: Option<Meta>)

  /** Everything outside the process. Each reply depends on the number of calls
      made before it, so the directory may change between any two calls. A
      listing leaves out "." and "..". */
  datatype System = System(
    listing: nat -> Option<seq<Name>>,
    open: (nat, Name) -> Option<Handle>,
    lookup: (nat, Name) -> Option<Meta>,
    bindings: nat -> bool,
    stop: nat -> bool,
    unlink: (nat, Name) -> bool)

  datatype Outcome = Completed | Busy | Failed | DeliveryUnknown

  datatype Removal = Removal(outcome: Outcome, count: Option<nat>, bytes: Option<nat>)

  /** One `unlinkat`, with the call number it was made at. */
  datatype Unlink = Unlink(at: nat, name: Name, succeeded: bool)

  // ------------------------------------------------------------------ vocabulary

  function Names(entries: seq<Entry>): (r: seq<Name>)
    ensures |r| == |entries|
    ensures forall i :: 0 <= i < |r| ==> r[i] == entries[i].name
  {
    seq(|entries|, i requires 0 <= i < |entries| => entries[i].name)
  }

  function Bytes(entries: seq<Entry>): nat {
    if entries == [] then 0 else Bytes(entries[..|entries| - 1]) + entries[|entries| - 1].identity.length
  }

  /** The published names of a listing, in its order. */
  function Published(names: seq<Name>): seq<Name> {
    if names == [] then []
    else Published(names[..|names| - 1]) + (if HexName(names[|names| - 1]) then [names[|names| - 1]] else [])
  }

  /** The opened file had safe metadata, genuine contents, and the same identity
      before and after its contents were read. */
  ghost predicate Intact(sys: System, e: Entry, t: nat) {
    && HexName(e.name)
    && sys.open(t, e.name).Some?
    && var h := sys.open(t, e.name).value;
    && h.meta.Some? && SafeFile(h.meta.value) && h.meta.value.identity == e.identity && HEADER <= e.identity.length
    && Genuine(h.script.stream, e.identity.length)
    && h.after.Some? && h.after.value.identity == e.identity
  }

  /** Neither the open file nor its name changed identity while it was read. */
  ghost predicate Vetted(sys: System, e: Entry, t: nat) {
    Intact(sys, e, t) && Unmoved(sys, e, t + 1)
  }

  /** The name still leads to the same safe file. */
  ghost predicate Unmoved(sys: System, e: Entry, t: nat) {
    && sys.lookup(t, e.name).Some?
    && SafeFile(sys.lookup(t, e.name).value)
    && sys.lookup(t, e.name).value.identity == e.identity
  }

  /** A safe, genuine file that changed identity while it was read, or whose name
      no longer leads to it: a producer is at work. */
  ghost predicate Moved(sys: System, e: Entry, t: nat) {
    && HexName(e.name)
    && sys.open(t, e.name).Some?
    && var h := sys.open(t, e.name).value;
    && h.meta.Some? && SafeFile(h.meta.value) && h.meta.value.identity == e.identity && HEADER <= e.identity.length
    && Genuine(h.script.stream, e.identity.length)
    && h.after.Some? && (h.after.value.identity == e.identity ==> !Unmoved(sys, e, t + 1))
  }

  ghost predicate MovedWithin(sys: System, from: nat, to: nat) {
    exists e, t :: from <= t < to && Moved(sys, e, t)
  }

  /** The names of `entries` are the published names of `listing`, as often. */
  ghost predicate Covers(entries: seq<Entry>, listing: seq<Name>) {
    forall n :: multiset(Names(entries))[n] == if HexName(n) then multiset(listing)[n] else 0
  }

  ghost predicate NoForeignName(listing: seq<Name>) {
    forall i :: 0 <= i < |listing| ==> HexName(listing[i]) || TemporaryName(listing[i])
  }

  /** Every name that is not a published one led to a safe file. */
  ghost predicate TemporariesSafe(sys: System, names: seq<Name>, from: nat, to: nat) {
    forall i :: 0 <= i < |names| && !HexName(names[i]) ==> SafeWithin(sys, names[i], from, to)
  }

  ghost predicate SafeWithin(sys: System, n: Name, from: nat, to: nat) {
    exists t :: from <= t < to && sys.lookup(t, n).Some? && SafeFile(sys.lookup(t, n).value)
  }

  /** A complete scan between two calls: every published file of the listing, each
      vetted, no foreign name in the bucket, and every temporary file safe. */
  ghost predicate Scanned(sys: System, from: nat, to: nat, entries: seq<Entry>) {
    && Bytes(entries) <= MAX_SCAN_BYTES && |entries| <= MAX_ENTRIES && InByteOrder(Names(entries))
    && (exists t :: from <= t < to && sys.listing(t).Some? && NoForeignName(sys.listing(t).value)
          && Covers(entries, sys.listing(t).value) && TemporariesSafe(sys, sys.listing(t).value, from, to))
    && AllVetted(sys, entries, from, to)
  }

  ghost predicate VettedWithin(sys: System, e: Entry, from: nat, to: nat) {
    exists t :: from <= t < to && Vetted(sys, e, t)
  }

  ghost predicate AllVetted(sys: System, entries: seq<Entry>, from: nat, to: nat) {
    forall i :: 0 <= i < |entries| ==> VettedWithin(sys, entries[i], from, to)
  }

  /** Five calls from `t`: not stopped, the directories unchanged, the file and its
      name still the planned safe file, and still not stopped. */
  ghost predicate Rechecked(sys: System, e: Entry, t: nat) {
    && !sys.stop(t) && sys.bindings(t + 1)
    && sys.open(t + 2, e.name).Some?
    && var h := sys.open(t + 2, e.name).value;
    && h.meta.Some? && SafeFile(h.meta.value) && h.meta.value.identity == e.identity
    && Unmoved(sys, e, t + 3)
    && !sys.stop(t + 4)
  }

  /** The unlink of a planned name, straight after its recheck. */
  ghost predicate Authorised(sys: System, e: Entry, u: Unlink) {
    5 <= u.at && u.name == e.name && u.succeeded == sys.unlink(u.at, e.name) && Rechecked(sys, e, u.at - 5)
  }

  /** The unlinks so far are an authorised prefix of the plan. */
  ghost predicate FollowsPlan(sys: System, plan: seq<Entry>, effects: seq<Unlink>) {
    && |effects| <= |plan|
    && (forall i :: 0 <= i < |effects| ==> Authorised(sys, plan[i], effects[i]))
    && (forall i :: 0 <= i < |effects| - 1 ==> effects[i].succeeded && effects[i].at < effects[i + 1].at)
  }

  ghost predicate AllSucceeded(effects: seq<Unlink>) {
    forall i :: 0 <= i < |effects| ==> effects[i].succeeded
  }

  /** What each outcome promises about the effects. */
  ghost predicate Reported(sys: System, plan: seq<Entry>, r: Removal, effects: seq<Unlink>) {
    && FollowsPlan(sys, plan, effects)
    && (r.outcome.Busy? ==> effects == [])
    && (r.outcome.Completed? ==>
          && |effects| == |plan| && AllSucceeded(effects)
          && r.count == Some(|plan|) && r.bytes == Some(Bytes(plan)) && Bytes(plan) <= MAX_SCAN_BYTES)
    && (r.outcome.Failed? ==> AllSucceeded(effects))
    && (r.outcome.DeliveryUnknown? ==> effects != [] && !effects[|effects| - 1].succeeded)
    && (!r.outcome.Completed? ==> r.count.None? && r.bytes.None?)
  }

  /** Every call about this entry succeeds. */
  ghost predicate Served(sys: System, e: Entry) {
    forall t: nat :: Intact(sys, e, t) && Unmoved(sys, e, t) && Quiet(sys.open(t, e.name).value.script)
      && sys.unlink(t, e.name)
  }

  ghost predicate AllServed(sys: System, entries: seq<Entry>, n: nat) {
    forall i :: 0 <= i < |entries| && i < n ==> Served(sys, entries[i])
  }

  /** Every time this entry is read, it has moved by the end. */
  ghost predicate Shifting(sys: System, e: Entry) {
    forall t: nat :: Moved(sys, e, t) && Quiet(sys.open(t, e.name).value.script)
  }

  /** Nothing stops the work, and every temporary file is safe. */
  ghost predicate Untroubled(sys: System) {
    && (forall t: nat :: !sys.stop(t) && sys.bindings(t))
    && (forall t: nat, n: Name :: TemporaryName(n) ==> sys.lookup(t, n).Some? && SafeFile(sys.lookup(t, n).value))
  }

  /** Nothing disturbs the bucket but one entry at most: it holds `files`, genuine
      and safe, and otherwise only temporary files; it may be listed in any order.
      The entries before `upset` stay as they are, and the one there keeps moving. */
  ghost predicate SteadyBut(sys: System, files: seq<Entry>, upset: nat) {
    && Untroubled(sys) && InByteOrder(Names(files)) && Bytes(files) <= MAX_SCAN_BYTES
    && (forall t: nat :: sys.listing(t).Some? && |sys.listing(t).value| <= MAX_ENTRIES
                         && NoForeignName(sys.listing(t).value) && Covers(files, sys.listing(t).value))
    && AllServed(sys, files, upset)
    && (upset < |files| ==> Shifting(sys, files[upset]))
  }

  /** Nothing disturbs the bucket, which holds exactly `files`. */
  ghost predicate Steady(sys: System, files: seq<Entry>) { SteadyBut(sys, files, |files|) }

  // ------------------------------------------------------------------ facts about listings

  lemma {:induction false} PublishedCounts(s: seq<Name>, n: Name)
    ensures multiset(Published(s))[n] == if HexName(n) then multiset(s)[n] else 0
    ensures |Published(s)| <= |s|
  {
    if s != [] {
      PublishedCounts(s[..|s| - 1], n);
      assert s == s[..|s| - 1] + [s[|s| - 1]];
    }
  }

  lemma {:induction false} PublishedFrom(s: seq<Name>, j: nat)
    requires j < |Published(s)|
    ensures exists i :: 0 <= i < |s| && Published(s)[j] == s[i] && Published(s[..i]) == Published(s)[..j]
  {
    var init := s[..|s| - 1];
    if j < |Published(init)| {
      PublishedFrom(init, j);
      var i :| 0 <= i < |init| && Published(init)[j] == init[i] && Published(init[..i]) == Published(init)[..j];
      assert init[..i] == s[..i] && Published(s)[..j] == Published(init)[..j];
    } else {
      assert Published(s)[..j] == Published(init);
    }
  }

  lemma {:induction false} PublishedOrdered(s: seq<Name>)
    requires InByteOrder(s)
    ensures InByteOrder(Published(s))
  {
    if s != [] {
      var init, last := s[..|s| - 1], s[|s| - 1];
      PublishedOrdered(init);
      forall j | 0 <= j < |Published(init)| ensures AtMost(Published(init)[j], last) { PublishedFrom(init, j); }
    }
  }

  /** A sorted listing that covers the plan publishes exactly the plan's names. */
  lemma SortedListing(sorted: seq<Name>, listing: seq<Name>, plan: seq<Entry>)
    requires InByteOrder(sorted) && multiset(sorted) == multiset(listing)
    requires InByteOrder(Names(plan)) && Covers(plan, listing)
    ensures Published(sorted) == Names(plan)
  {
    PublishedOrdered(sorted);
    forall n ensures multiset(Published(sorted))[n] == multiset(Names(plan))[n] { PublishedCounts(sorted, n); }
    assert multiset(Published(sorted)) == multiset(Names(plan));
    ByteOrder();
    OrderedUnique(AtMost, Published(sorted), Names(plan));
  }

  lemma {:induction false} PublishedPrefix(s: seq<Name>, i: nat)
    requires i <= |s|
    ensures |Published(s[..i])| <= |Published(s)| && Published(s[..i]) == Published(s)[..|Published(s[..i])|]
    decreases |s| - i
  {
    if i < |s| {
      PublishedPrefix(s, i + 1);
      assert s[..i + 1][..i] == s[..i];
    } else {
      assert s[..i] == s;
    }
  }

  lemma {:induction false} BytesPrefix(entries: seq<Entry>, i: nat)
    requires i <= |entries|
    ensures Bytes(entries[..i]) <= Bytes(entries)
    decreases |entries| - i
  {
    if i < |entries| {
      BytesPrefix(entries, i + 1);
      assert entries[..i + 1][..i] == entries[..i];
    } else {
      assert entries[..i] == entries;
    }
  }

  lemma BytesStep(entries: seq<Entry>, i: nat)
    requires i < |entries|
    ensures Bytes(entries[..i + 1]) == Bytes(entries[..i]) + entries[i].identity.length
  {
    assert entries[..i + 1][..i] == entries[..i];
  }

  // ------------------------------------------------------------------ the process

  class Process {
    const sys: System
    var clock: nat
    ghost var effects: seq<Unlink>

    constructor (sys: System)
      ensures this.sys == sys && clock == 0 && effects == []
    {
      this.sys := sys;
      clock, effects := 0, [];
    }

    /** Opens, checks and validates one published file. */
    method ScanFile(table: array<bv32>, name: Name, total: nat, ghost known: Entry)
        returns (r: Result<Entry, ScanError>)
      requires IsTable(table[..]) && HexName(name)
      modifies this`clock
      ensures old(clock) < clock
      ensures r.Ok? ==>
        && r.value.name == name && total + r.value.identity.length <= MAX_SCAN_BYTES
        && clock == old(clock) + 2 && Vetted(sys, r.value, old(clock))
      ensures r == Err(ScanError.Busy) ==> MovedWithin(sys, old(clock), clock)
      ensures known.name == name && total + known.identity.length <= MAX_SCAN_BYTES ==>
        && (Served(sys, known) ==> r == Ok(known))
        && (Shifting(sys, known) ==> r == Err(ScanError.Busy))
    {
      ghost var from := clock;
      assert (Served(sys, known) ==> Intact(sys, known, from)) && (Shifting(sys, known) ==> Moved(sys, known, from));
      var handle := sys.open(clock, name);
      clock := clock + 1;
      if handle.None? || handle.value.meta.None? { return Err(Io); }
      var meta := handle.value.meta.value;
      if !SafeFile(meta) || meta.identity.length < HEADER { return Err(Unsafe); }
      if total + meta.identity.length > MAX_SCAN_BYTES { return Err(Unsafe); }
      var file := new OpenFile(handle.value.script);
      var valid := ValidateCacheFile(table, file, meta.identity.length);
      if valid.Err? { return Err(valid.error); }
      if handle.value.after.None? { return Err(Io); }
      if meta.identity != handle.value.after.value.identity {
        assert Moved(sys, Entry(name, meta.identity), from);
        return Err(ScanError.Busy);
      }
      assert Served(sys, known) ==> Unmoved(sys, known, clock);
      var current := sys.lookup(clock, name);
      clock := clock + 1;
      if current.None? || !SafeFile(current.value) || current.value.identity != meta.identity {
        assert Moved(sys, Entry(name, meta.identity), from);
        return Err(ScanError.Busy);
      }
      return Ok(Entry(name, meta.identity));
    }

    /** One name of the listing: an entry, or nothing for a safe temporary file. */
    method ScanName(table: array<bv32>, name: Name, total: nat, ghost known: Entry)
        returns (r: Result<Option<Entry>, ScanError>)
      requires IsTable(table[..])
      modifies this`clock
      ensures old(clock) < clock
      ensures r.Ok? && r.value.Some? ==>
        && HexName(name) && r.value.value.name == name && total + r.value.value.identity.length <= MAX_SCAN_BYTES
        && VettedWithin(sys, r.value.value, old(clock), clock)
      ensures r.Ok? && r.value.None? ==>
        TemporaryName(name) && !HexName(name) && SafeWithin(sys, name, old(clock), clock)
      ensures sys.stop(old(clock)) ==> r == Err(Unsafe)
      ensures Untroubled(sys) && TemporaryName(name) ==> r == Ok(None)
      ensures r == Err(ScanError.Busy) ==> MovedWithin(sys, old(clock), clock)
      ensures HexName(name) && Untroubled(sys) && known.name == name ==>
        total + known.identity.length <= MAX_SCAN_BYTES ==>
          && (Served(sys, known) ==> r == Ok(Some(known)))
          && (Shifting(sys, known) ==> r == Err(ScanError.Busy))
    {
      var stopped := sys.stop(clock);
      clock := clock + 1;
      if stopped { return Err(Unsafe); }
      if !HexName(name) {
        if !TemporaryName(name) { return Err(Unsafe); }
        var meta := sys.lookup(clock, name);
        clock := clock + 1;
        if meta.None? { return Err(Io); }
        if !SafeFile(meta.value) { return Err(Unsafe); }
        assert sys.lookup(clock - 1, name) == meta;
        return Ok(None);
      }
      ghost var from := clock;
      var entry := ScanFile(table, name, total, known);
      if entry.Err? { return Err(entry.error); }
      assert Vetted(sys, entry.value, from);
      return Ok(Some(entry.value));
    }

    /** The names in the bucket, unless it cannot be listed or holds too many. */
    method DirectoryNames() returns (r: Option<seq<Name>>)
      modifies this`clock
      ensures clock == old(clock) + 1
      ensures r.Some? <==> sys.listing(old(clock)).Some? && |sys.listing(old(clock)).value| <= MAX_ENTRIES
      ensures r.Some? ==> r == sys.listing(old(clock))
    {
      r := sys.listing(clock);
      clock := clock + 1;
      if r.Some? && |r.value| > MAX_ENTRIES { r := None; }
    }

    /** An accepted scan is complete and within budget; it removes nothing. A
        steady bucket is accepted, however it is listed; a scan is busy only if it
        met a file that moved, and is busy if the first trouble it meets is one. */
    method ScanEntries(table: array<bv32>, ghost files: seq<Entry>, ghost upset: nat)
        returns (r: Result<seq<Entry>, ScanError>)
      requires IsTable(table[..])
      modifies this`clock
      ensures old(clock) < clock
      ensures r.Ok? ==> Scanned(sys, old(clock), clock, r.value)
      ensures r == Err(ScanError.Busy) ==> MovedWithin(sys, old(clock), clock)
      ensures SteadyBut(sys, files, upset) ==> r == if upset < |files| then Err(ScanError.Busy) else Ok(files)
    {
      ghost var from := clock;
      var listed := DirectoryNames();
      if listed.None? { return Err(Io); }
      ByteOrder();
      var names := SortBy(AtMost, listed.value);
      if SteadyBut(sys, files, upset) { SteadyIsExpected(sys, files, upset, names, listed.value); }
      r := ScanNames(table, names, files, upset);
      if r.Ok? {
        assert names[..|names|] == names;
        ScanIsComplete(names, listed.value, r.value);
        StillVetted(sys, r.value, from + 1, clock, from, clock);
        SafeInAnyOrder(sys, names, listed.value, from + 1, clock, from);
      }
    }

    method ScanNames(table: array<bv32>, names: seq<Name>, ghost files: seq<Entry>, ghost upset: nat)
        returns (r: Result<seq<Entry>, ScanError>)
      requires IsTable(table[..])
      modifies this`clock
      ensures old(clock) <= clock
      ensures r.Ok? ==> ScannedSoFar(sys, names, |names|, r.value, old(clock), clock)
      ensures r == Err(ScanError.Busy) ==> MovedWithin(sys, old(clock), clock)
      ensures Expected(sys, files, upset, names) ==>
        r == if upset < |files| then Err(ScanError.Busy) else Ok(files)
    {
      var entries, total := [], 0;
      for i := 0 to |names|
        invariant old(clock) <= clock
        invariant total == Bytes(entries) && ScannedSoFar(sys, names, i, entries, old(clock), clock)
        invariant Expected(sys, files, upset, names) ==> entries <= files && |entries| <= upset
      {
        ghost var before := clock;
        ghost var known := NextKnown(sys, files, upset, names, i, entries);
        var one := ScanName(table, names[i], total, known);
        if one.Err? { return Err(one.error); }
        Extended(sys, names, i, entries, one.value, old(clock), before, clock);
        if one.value.Some? {
          entries := entries + [one.value.value];
          total := total + one.value.value.identity.length;
        }
      }
      AllScanned(sys, names, entries, files, upset);
      return Ok(entries);
    }

    /** Rechecks one planned entry. */
    method Recheck(e: Entry) returns (ok: bool)
      modifies this`clock
      ensures old(clock) < clock
      ensures ok <==> Rechecked(sys, e, old(clock))
      ensures ok ==> clock == old(clock) + 5
    {
      var stopped := sys.stop(clock);
      clock := clock + 1;
      if stopped { return false; }
      var bound := sys.bindings(clock);
      clock := clock + 1;
      if !bound { return false; }
      var handle := sys.open(clock, e.name);
      clock := clock + 1;
      if handle.None? || handle.value.meta.None? { return false; }
      if !SafeFile(handle.value.meta.value) || handle.value.meta.value.identity != e.identity { return false; }
      var current := sys.lookup(clock, e.name);
      clock := clock + 1;
      if current.None? || !SafeFile(current.value) || current.value.identity != e.identity { return false; }
      stopped := sys.stop(clock);
      clock := clock + 1;
      ok := !stopped;
    }

    /** Rechecks one planned entry and unlinks it; `None` when it is gone. */
    method RemoveEntry(e: Entry) returns (refused: Option<Outcome>)
      modifies this
      ensures old(clock) < clock
      ensures refused == Some(Failed) ==> effects == old(effects)
      ensures refused != Some(Failed) ==>
        && clock == old(clock) + 6 && effects == old(effects) + [Unlink(old(clock) + 5, e.name, refused.None?)]
        && Authorised(sys, e, effects[|old(effects)|])
      ensures refused in {None, Some(Failed), Some(DeliveryUnknown)}
      ensures refused == Some(Failed) <==> !Rechecked(sys, e, old(clock))
      ensures Untroubled(sys) && Served(sys, e) ==> refused.None?
    {
      if Untroubled(sys) && Served(sys, e) { ServedIsRechecked(sys, e, clock); }
      var ok := Recheck(e);
      if !ok { return Some(Failed); }
      var gone := sys.unlink(clock, e.name);
      effects := effects + [Unlink(clock, e.name, gone)];
      clock := clock + 1;
      refused := if gone then None else Some(DeliveryUnknown);
    }

    /** Removes the plan entry by entry, stopping at the first refusal. */
    method RemoveAll(plan: seq<Entry>) returns (r: Removal)
      requires effects == [] && Bytes(plan) <= MAX_SCAN_BYTES
      modifies this
      ensures Reported(sys, plan, r, effects) && !r.outcome.Busy?
      ensures r.outcome.Failed? ==> |effects| < |plan| && SpoiltAfter(sys, plan[|effects|], old(clock))
      ensures effects != [] ==> old(clock) + 5 <= effects[0].at
      ensures Untroubled(sys) && AllServed(sys, plan, |plan|) ==> r.outcome.Completed?
    {
      var bytes := 0;
      for i := 0 to |plan|
        invariant |effects| == i && Following(sys, plan, effects, old(clock), clock)
        invariant bytes == Bytes(plan[..i])
      {
        ghost var before, done := clock, effects;
        var refused := RemoveEntry(plan[i]);
        if refused.Some? {
          Refused(sys, plan, done, effects, old(clock), before, refused.value);
          return Removal(refused.value, None, None);
        }
        Followed(sys, plan, done, effects[i], old(clock), before, clock);
        BytesStep(plan, i);
        bytes := bytes + plan[i].identity.length;
      }
      Finished(sys, plan, effects, bytes, old(clock), clock);
      return Removal(Completed, Some(|plan|), Some(bytes));
    }

    /** Rechecks the whole bucket, then removes the plan. Whatever the system does
        in between, the effects are as the outcome reports them, and none comes
        before a complete scan found the plan unchanged. A steady bucket is emptied
        of the plan if it holds exactly that, and is busy otherwise; it is also busy
        if the first trouble is a file that moves, and in no case beside these. */
    method RemoveFiles(table: array<bv32>, plan: seq<Entry>, ghost files: seq<Entry>, ghost upset: nat)
        returns (r: Removal)
      requires IsTable(table[..]) && effects == []
      modifies this
      ensures Reported(sys, plan, r, effects)
      ensures effects != [] ==> RescannedBefore(sys, plan, effects[0].at)
      ensures Steady(sys, files) && upset == |files| ==>
        r.outcome == if files == plan then Completed else Outcome.Busy
      ensures SteadyBut(sys, files, upset) && upset < |files| ==> r.outcome.Busy?
      ensures r.outcome.Busy? ==> OtherwiseEngaged(sys, plan, old(clock), clock)
      ensures sys.stop(old(clock)) || !sys.bindings(old(clock) + 1) ==> r.outcome.Failed? && effects == []
    {
      var stopped := sys.stop(clock);
      clock := clock + 1;
      if stopped { return Removal(Failed, None, None); }
      var bound := sys.bindings(clock);
      clock := clock + 1;
      if !bound { return Removal(Failed, None, None); }
      var current := ScanEntries(table, files, upset);
      if current.Err? { return Removal(if current.error.Busy? then Outcome.Busy else Failed, None, None); }
      if current.value != plan { return Removal(Outcome.Busy, None, None); }
      r := RemoveAll(plan);
    }
  }

  /** A file moved under the scan, or a complete scan found something else than
      the plan. */
  ghost predicate OtherwiseEngaged(sys: System, plan: seq<Entry>, from: nat, to: nat) {
    MovedWithin(sys, from, to) || exists other, since: nat :: other != plan && Scanned(sys, since, to, other)
  }

  /** A planned entry failed its recheck. */
  ghost predicate SpoiltAfter(sys: System, e: Entry, from: nat) {
    exists t: nat :: from <= t && !Rechecked(sys, e, t)
  }

  lemma ServedIsRechecked(sys: System, e: Entry, t: nat)
    requires Untroubled(sys) && Served(sys, e)
    ensures Rechecked(sys, e, t) && sys.unlink(t + 5, e.name)
  {
    assert Intact(sys, e, t + 2) && Unmoved(sys, e, t + 3);
    assert Unmoved(sys, e, t + 5);
  }

  /** A complete scan that found exactly the plan ended before call `at`. */
  ghost predicate RescannedBefore(sys: System, plan: seq<Entry>, at: nat) {
    exists from: nat, to: nat :: to < at && Scanned(sys, from, to, plan)
  }

  ghost predicate Following(sys: System, plan: seq<Entry>, effects: seq<Unlink>, from: nat, to: nat) {
    && FollowsPlan(sys, plan, effects) && AllSucceeded(effects) && from <= to
    && (effects != [] ==> from + 5 <= effects[0].at && effects[|effects| - 1].at < to)
  }

  lemma Followed(sys: System, plan: seq<Entry>, done: seq<Unlink>, u: Unlink, from: nat, before: nat, to: nat)
    requires Following(sys, plan, done, from, before) && |done| < |plan|
    requires Authorised(sys, plan[|done|], u) && u.at == before + 5 && u.succeeded && u.at < to
    ensures Following(sys, plan, done + [u], from, to)
  {
    var all := done + [u];
    forall i | 0 <= i < |all| ensures Authorised(sys, plan[i], all[i]) && all[i].succeeded {
      if i < |done| { assert all[i] == done[i]; }
    }
    forall i | 0 <= i < |all| - 1 ensures all[i].succeeded && all[i].at < all[i + 1].at {
      if i < |done| - 1 { assert done[i].at < done[i + 1].at; }
    }
  }

  lemma Finished(sys: System, plan: seq<Entry>, effects: seq<Unlink>, bytes: nat, from: nat, to: nat)
    requires Following(sys, plan, effects, from, to) && |effects| == |plan|
    requires bytes == Bytes(plan[..|plan|]) && Bytes(plan) <= MAX_SCAN_BYTES
    ensures Reported(sys, plan, Removal(Completed, Some(|plan|), Some(bytes)), effects)
  {
    assert plan[..|plan|] == plan;
  }

  lemma Refused(sys: System, plan: seq<Entry>, done: seq<Unlink>, effects: seq<Unlink>, from: nat, before: nat,
                outcome: Outcome)
    requires Following(sys, plan, done, from, before) && |done| < |plan|
    requires outcome == Failed || outcome == DeliveryUnknown
    requires outcome == Failed ==> effects == done
    requires outcome == DeliveryUnknown ==>
      && |effects| == |done| + 1 && effects[..|done|] == done
      && Authorised(sys, plan[|done|], effects[|done|]) && effects[|done|].at == before + 5
          && !effects[|done|].succeeded
    requires outcome == Failed ==> !Rechecked(sys, plan[|done|], before)
    ensures Reported(sys, plan, Removal(outcome, None, None), effects)
    ensures effects != [] ==> from + 5 <= effects[0].at
    ensures outcome == Failed ==> |effects| < |plan| && SpoiltAfter(sys, plan[|effects|], from)
  {
    forall i | 0 <= i < |effects| ensures Authorised(sys, plan[i], effects[i]) {
      if i < |done| { assert effects[i] == done[i]; }
    }
    forall i | 0 <= i < |effects| - 1 ensures effects[i].succeeded && effects[i].at < effects[i + 1].at {
      assert effects[i] == done[i];
      if i < |done| - 1 { assert effects[i + 1] == done[i + 1]; }
    }
    if done != [] { assert effects[0] == done[0]; }
  }

  /** The first `i` names are scanned. */
  ghost predicate ScannedSoFar(sys: System, names: seq<Name>, i: nat, entries: seq<Entry>, from: nat, to: nat)
    requires i <= |names|
  {
    && Bytes(entries) <= MAX_SCAN_BYTES && NoForeignName(names[..i])
    && Names(entries) == Published(names[..i]) && AllVetted(sys, entries, from, to)
    && TemporariesSafe(sys, names[..i], from, to)
  }

  lemma AllScanned(sys: System, names: seq<Name>, entries: seq<Entry>, files: seq<Entry>, upset: nat)
    requires Names(entries) == Published(names[..|names|])
    requires Expected(sys, files, upset, names) ==> entries <= files && |entries| <= upset
    ensures Expected(sys, files, upset, names) ==> entries == files && |files| <= upset
  {
    assert names[..|names|] == names;
    if Expected(sys, files, upset, names) { assert |Names(entries)| == |Names(files)|; }
  }

  lemma Extended(sys: System, names: seq<Name>, i: nat, entries: seq<Entry>, one: Option<Entry>, from: nat,
                 before: nat, to: nat)
    requires i < |names| && from <= before <= to && ScannedSoFar(sys, names, i, entries, from, before)
    requires one.None? ==> TemporaryName(names[i]) && !HexName(names[i]) && SafeWithin(sys, names[i], before, to)
    requires one.Some? ==>
      && HexName(names[i]) && one.value.name == names[i] && VettedWithin(sys, one.value, before, to)
      && Bytes(entries) + one.value.identity.length <= MAX_SCAN_BYTES
    ensures one.None? ==> ScannedSoFar(sys, names, i + 1, entries, from, to)
    ensures one.Some? ==>
      && ScannedSoFar(sys, names, i + 1, entries + [one.value], from, to)
      && Bytes(entries + [one.value]) == Bytes(entries) + one.value.identity.length
  {
    PublishedStep(names, i);
    assert names[..i + 1] == names[..i] + [names[i]];
    StillVetted(sys, entries, from, before, from, to);
    StillSafe(sys, names, i, from, before, to);
    if one.Some? { Pushed(sys, entries, one.value, from, before, to); }
  }

  lemma StillSafe(sys: System, names: seq<Name>, i: nat, from: nat, before: nat, to: nat)
    requires i < |names| && from <= before <= to && TemporariesSafe(sys, names[..i], from, before)
    requires HexName(names[i]) || SafeWithin(sys, names[i], before, to)
    ensures TemporariesSafe(sys, names[..i + 1], from, to)
  {
    forall k | 0 <= k <= i && !HexName(names[k]) ensures SafeWithin(sys, names[k], from, to) {
      if k < i { assert names[..i][k] == names[k]; }
    }
  }

  /** Safety is said of names, whatever their order. */
  lemma SafeInAnyOrder(sys: System, names: seq<Name>, listing: seq<Name>, from: nat, to: nat, earlier: nat)
    requires TemporariesSafe(sys, names, from, to) && multiset(names) == multiset(listing) && earlier <= from
    ensures TemporariesSafe(sys, listing, earlier, to)
  {
    forall i | 0 <= i < |listing| && !HexName(listing[i]) ensures SafeWithin(sys, listing[i], earlier, to) {
      assert listing[i] in multiset(names);
    }
  }

  lemma NextKnown(sys: System, files: seq<Entry>, upset: nat, names: seq<Name>, i: nat, entries: seq<Entry>)
      returns (known: Entry)
    requires i < |names| && Names(entries) == Published(names[..i])
    requires Expected(sys, files, upset, names) ==> entries <= files && |entries| <= upset
    ensures Expected(sys, files, upset, names) && !HexName(names[i]) ==> TemporaryName(names[i])
    ensures Expected(sys, files, upset, names) && HexName(names[i]) ==>
      && known.name == names[i] && Bytes(entries) + known.identity.length <= MAX_SCAN_BYTES
      && entries + [known] <= files
      && if |entries| < upset then Served(sys, known) else Shifting(sys, known)
  {
    known := if |entries| < |files| then files[|entries|] else Entry(names[i], Identity(0, 0, 0, (0, 0), (0, 0)));
    if Expected(sys, files, upset, names) {
      assert NextFits(sys, files, upset, names, i);
      assert files[..|entries|] == entries;
    }
  }

  /** The name at `i` is a temporary one, or the next file and within budget. */
  ghost predicate NextFits(sys: System, files: seq<Entry>, upset: nat, names: seq<Name>, i: nat)
    requires i < |names|
  {
    var k := |Published(names[..i])|;
    || (TemporaryName(names[i]) && !HexName(names[i]))
    || (HexName(names[i]) && k < |files| && files[k].name == names[i]
        && (k < upset ==> Served(sys, files[k])) && (k == upset ==> Shifting(sys, files[k]))
        && Bytes(files[..k]) + files[k].identity.length <= MAX_SCAN_BYTES)
  }

  ghost predicate Expected(sys: System, files: seq<Entry>, upset: nat, names: seq<Name>) {
    && Untroubled(sys) && Published(names) == Names(files)
    && forall i :: 0 <= i < |names| ==> NextFits(sys, files, upset, names, i)
  }

  lemma StillVetted(sys: System, entries: seq<Entry>, from: nat, to: nat, earlier: nat, later: nat)
    requires AllVetted(sys, entries, from, to) && earlier <= from && to <= later
    ensures AllVetted(sys, entries, earlier, later)
  {
  }

  lemma Pushed(sys: System, entries: seq<Entry>, e: Entry, from: nat, before: nat, to: nat)
    requires from <= before <= to && AllVetted(sys, entries, from, to) && VettedWithin(sys, e, before, to)
    ensures AllVetted(sys, entries + [e], from, to)
    ensures Names(entries + [e]) == Names(entries) + [e.name]
    ensures Bytes(entries + [e]) == Bytes(entries) + e.identity.length
  {
  }

  lemma ScanIsComplete(names: seq<Name>, listing: seq<Name>, entries: seq<Entry>)
    requires InByteOrder(names) && multiset(names) == multiset(listing) && NoForeignName(names)
    requires Names(entries) == Published(names)
    ensures InByteOrder(Names(entries)) && Covers(entries, listing) && NoForeignName(listing) && |entries| <= |listing|
  {
    PublishedOrdered(names);
    forall n ensures multiset(Names(entries))[n] == if HexName(n) then multiset(listing)[n] else 0 {
      PublishedCounts(names, n);
    }
    forall i | 0 <= i < |listing| ensures HexName(listing[i]) || TemporaryName(listing[i]) {
      assert listing[i] in multiset(names);
    }
    PublishedCounts(names, []);
    assert |names| == |multiset(names)| == |listing|;
  }

  lemma PublishedStep(names: seq<Name>, i: nat)
    requires i < |names|
    ensures Published(names[..i + 1]) == Published(names[..i]) + (if HexName(names[i]) then [names[i]] else [])
  {
    assert names[..i + 1][..i] == names[..i];
  }

  lemma NextPublished(names: seq<Name>, i: nat)
    requires i < |names| && HexName(names[i])
    ensures |Published(names[..i])| < |Published(names)| && Published(names)[|Published(names[..i])|] == names[i]
  {
    PublishedPrefix(names, i + 1);
    PublishedStep(names, i);
  }

  lemma WithinBudget(plan: seq<Entry>, k: nat)
    requires k < |plan| && Bytes(plan) <= MAX_SCAN_BYTES
    ensures Bytes(plan[..k]) + plan[k].identity.length <= MAX_SCAN_BYTES
  {
    BytesPrefix(plan, k + 1);
    assert plan[..k + 1][..k] == plan[..k];
  }

  /** In a steady bucket the next published name is that of the next file. */
  lemma SteadyFits(sys: System, files: seq<Entry>, upset: nat, names: seq<Name>, i: nat)
    requires SteadyBut(sys, files, upset) && i < |names| && (HexName(names[i]) || TemporaryName(names[i]))
    requires Published(names) == Names(files)
    ensures NextFits(sys, files, upset, names, i)
  {
    if HexName(names[i]) {
      NextPublished(names, i);
      WithinBudget(files, |Published(names[..i])|);
    }
  }

  lemma SteadyIsExpected(sys: System, files: seq<Entry>, upset: nat, names: seq<Name>, listing: seq<Name>)
    requires SteadyBut(sys, files, upset) && InByteOrder(names) && multiset(names) == multiset(listing)
    requires Covers(files, listing) && NoForeignName(listing)
    ensures Expected(sys, files, upset, names)
  {
    SortedListing(names, listing, files);
    forall i | 0 <= i < |names| ensures HexName(names[i]) || TemporaryName(names[i]) {
      assert names[i] in multiset(listing);
    }
    forall i | 0 <= i < |names| ensures NextFits(sys, files, upset, names, i) {
      SteadyFits(sys, files, upset, names, i);
    }
  }

  /** What stood behind a name that was unlinked: five calls before, the planned
      inode was opened there as a regular file of the user's own, with one link
      and closed to writers, and two calls before the name led to such a file
      still; nothing had asked for a stop in between. */
  lemma UnlinkedIsSafe(sys: System, plan: seq<Entry>, effects: seq<Unlink>, i: nat)
    requires FollowsPlan(sys, plan, effects) && i < |effects|
    ensures effects[i].name == plan[i].name && 5 <= effects[i].at
    ensures var t := effects[i].at;
      && !sys.stop(t - 5) && !sys.stop(t - 1) && sys.bindings(t - 4)
      && (exists script, after ::
            sys.open(t - 3, plan[i].name) ==
            Some(Handle(Some(Meta(plan[i].identity, true, true, 1, false)), script, after)))
      && sys.lookup(t - 2, plan[i].name) == Some(Meta(plan[i].identity, true, true, 1, false))
  {
    assert Authorised(sys, plan[i], effects[i]);
    var h := sys.open(effects[i].at - 3, plan[i].name).value;
    assert h == Handle(Some(Meta(plan[i].identity, true, true, 1, false)), h.script, h.after);
  }

  /** What a scan vouches for: every file it lists has a name of eight lower-case
      hexadecimal digits, and the whole list stays within the fixed budget. */
  lemma ScannedIsPublished(sys: System, from: nat, to: nat, entries: seq<Entry>, i: nat)
    requires Scanned(sys, from, to, entries) && i < |entries|
    ensures Spelled(entries[i].name, HEX_DIGITS) && |entries[i].name| == 8
    ensures 20 <= entries[i].identity.length <= Bytes(entries) <= 2_147_483_648 && |entries| <= 65_536
  {
    assert VettedWithin(sys, entries[i], from, to);
    HexNameSpelled(entries[i].name);
    BytesPrefix(entries, i + 1);
    BytesStep(entries, i);
  }
}
