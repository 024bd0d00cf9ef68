/**
  Settings files and the table of open handles (src/storage.c). A file is an ordered list
  of groups of keys; each open handle caches the parsed settings and every write saves the
  whole cache. Opens and writes take their outcome from a supply: zero succeeds, REFUSED lets
  the settings library refuse a value before it is cached, any other number fails with that
  error, and an exhausted supply succeeds.
*/
module Storage {
  import opened KnotTypes

  /** No error number of the system. */
  const REFUSED := 0x1_0000

  const DATA_ITEM_GROUP := "DataItem_"

  datatype Group = Group(name: string, keys: map<string, string>)

  type Settings = seq<Group>

  // ---------- Settings ----------

  /** The position of the first group of that name, or the number of groups. */
  function Find(s: Settings, group: string): (i: nat)
    ensures i <= |s|
    ensures i < |s| ==> s[i].name == group
    ensures forall j | 0 <= j < i :: s[j].name != group
  {
    if s == [] || s[0].name == group then 0 else 1 + Find(s[1..], group)
  }

  function Names(s: Settings): (names: seq<string>)
    ensures |names| == |s|
    ensures forall i | 0 <= i < |s| :: names[i] == s[i].name
  {
    seq(|s|, i requires 0 <= i < |s| => s[i].name)
  }

  function Get(s: Settings, group: string, key: string): Option<string> {
    var i := Find(s, group);
    if i < |s| && key in s[i].keys then Some(s[i].keys[key]) else None
  }

  function Put(s: Settings, group: string, key: string, text: string): Settings {
    var i := Find(s, group);
    if i < |s| then s[i := Group(group, s[i].keys[key := text])]
    else s + [Group(group, map[key := text])]
  }

  function WithoutGroup(s: Settings, group: string): Settings {
    var i := Find(s, group);
    if i < |s| then s[..i] + s[i + 1..] else s
  }

  function WithoutKey(s: Settings, group: string, key: string): Settings {
    var i := Find(s, group);
    if i < |s| then s[i := Group(group, s[i].keys - {key})] else s
  }

  lemma FindUnique(s: Settings, group: string, i: nat)
    requires i <= |s|
    requires i < |s| ==> s[i].name == group
    requires forall j | 0 <= j < i :: s[j].name != group
    ensures Find(s, group) == i
  {
  }

  /** A key reads back as written, and nothing else changes. */
  lemma GetPut(s: Settings, group: string, key: string, text: string, group': string, key': string)
    ensures Get(Put(s, group, key, text), group', key') ==
            if group' == group && key' == key then Some(text) else Get(s, group', key')
  {
    var i := Find(s, group);
    var after := Put(s, group, key, text);
    var i' := Find(s, group');
    if i < |s| {
      FindUnique(after, group', i');
    } else if group' == group {
      FindUnique(after, group', |s|);
    } else if i' < |s| {
      FindUnique(after, group', i');
    } else {
      FindUnique(after, group', |s| + 1);
    }
  }

  /** Writing to a group that exists adds and moves no group, and touches only the first
      group of that name. */
  lemma PutKeepsGroups(s: Settings, group: string, key: string, text: string)
    requires Find(s, group) < |s|
    ensures Names(Put(s, group, key, text)) == Names(s)
    ensures Find(Put(s, group, key, text), group) == Find(s, group)
    ensures forall i | 0 <= i < |s| && i != Find(s, group) :: Put(s, group, key, text)[i] == s[i]
  {
    FindUnique(Put(s, group, key, text), group, Find(s, group));
  }

  // ---------- Disk and handles ----------

  datatype Handle = Handle(path: string, settings: Settings)

  datatype Disk = Disk(files: map<string, Settings>, handles: map<int, Handle>, faults: seq<nat>)

  function FirstOf(faults: seq<nat>): int {
    if faults == [] then 0 else faults[0]
  }

  function RestOf(faults: seq<nat>): seq<nat> {
    if faults == [] then [] else faults[1..]
  }

  /** The next n file operations all succeed. */
  predicate Healthy(faults: seq<nat>, n: nat) {
    n == 0 || (FirstOf(faults) == 0 && Healthy(RestOf(faults), n - 1))
  }

  lemma HealthyThree(faults: seq<nat>)
    ensures Healthy(faults, 3) <==>
            FirstOf(faults) == 0 && FirstOf(RestOf(faults)) == 0 && FirstOf(RestOf(RestOf(faults))) == 0
  {
    var rest := RestOf(faults);
    assert Healthy(faults, 3) <==> FirstOf(faults) == 0 && Healthy(rest, 2);
    assert Healthy(rest, 2) <==> FirstOf(rest) == 0 && Healthy(RestOf(rest), 1);
    assert Healthy(RestOf(rest), 1) <==> FirstOf(RestOf(rest)) == 0;
  }

  function NextFault(d: Disk): int {
    FirstOf(d.faults)
  }

  function AfterFault(d: Disk): Disk {
    d.(faults := RestOf(d.faults))
  }

  function LowestFree(used: set<int>, from: int): (fd: int)
    ensures from <= fd && fd !in used
    decreases |used|
  {
    if from in used then LowestFree(used - {from}, from + 1) else from
  }

  function Opened(d: Disk, path: string): (Disk, int) {
    var e, d1 := NextFault(d), AfterFault(d);
    if e != 0 then (d1, -e)
    else
      var fd := LowestFree(d.handles.Keys, 3);
      var files := if path in d.files then d.files else d.files[path := []];
      (d1.(files := files, handles := d.handles[fd := Handle(path, files[path])]), fd)
  }

  function Closed(d: Disk, fd: int): (Disk, int) {
    if fd in d.handles then (d.(handles := d.handles - {fd}), 0) else (d, -ENOENT)
  }

  /** The cache of a handle replaced, and then saved if the file operation succeeds. */
  function Saved(d: Disk, fd: int, settings: Settings): (Disk, int)
    requires fd in d.handles
  {
    var e, path := NextFault(d), d.handles[fd].path;
    var d1 := AfterFault(d).(handles := d.handles[fd := Handle(path, settings)]);
    if e != 0 then (d1, -e) else (d1.(files := d.files[path := settings]), 0)
  }

  function Written(d: Disk, fd: int, group: string, key: string, text: string, missing: int): (Disk, int) {
    if fd !in d.handles then (d, -missing)
    else if NextFault(d) == REFUSED then (AfterFault(d), -EINVAL)
    else Saved(d, fd, Put(d.handles[fd].settings, group, key, text))
  }

  function WrittenString(d: Disk, fd: int, group: string, key: string, text: string): (Disk, int) {
    Written(d, fd, group, key, text, EIO)
  }

  function WrittenScalar(p: Platform, d: Disk, fd: int, group: string, key: string, value: Scalar): (Disk, int) {
    Written(d, fd, group, key, p.show(value), EINVAL)
  }

  function RemovedKey(d: Disk, fd: int, group: string, key: string): (Disk, int) {
    if fd !in d.handles || Get(d.handles[fd].settings, group, key).None? then (d, -EINVAL)
    else Saved(d, fd, WithoutKey(d.handles[fd].settings, group, key))
  }

  function ReadString(d: Disk, fd: int, group: string, key: string): Option<string> {
    if fd in d.handles then Get(d.handles[fd].settings, group, key) else None
  }

  // ---------- Results on single operations ----------

  /** A successful write leaves the file equal to the cache of its handle; a failed one leaves
      every file alone but keeps the unsaved value in the cache, unless the value was refused. No
      other file, no other handle and no path changes. */
  lemma WriteThrough(d: Disk, fd: int, group: string, key: string, text: string, missing: int)
    requires fd in d.handles
    ensures var (d', rc) := Written(d, fd, group, key, text, missing);
            && d'.handles.Keys == d.handles.Keys
            && d'.handles[fd].path == d.handles[fd].path
            && Get(d'.handles[fd].settings, group, key) ==
               (if NextFault(d) == REFUSED then Get(d.handles[fd].settings, group, key) else Some(text))
            && (forall g, k :: !(g == group && k == key) ==>
                                 Get(d'.handles[fd].settings, g, k) == Get(d.handles[fd].settings, g, k))
            && (forall h | h in d.handles && h != fd :: d'.handles[h] == d.handles[h])
            && rc == (if NextFault(d) == REFUSED then -EINVAL else -NextFault(d))
            && (rc < 0 ==> d'.files == d.files)
            && (rc >= 0 ==> d'.files == d.files[d.handles[fd].path := d'.handles[fd].settings])
  {
    var s := d.handles[fd].settings;
    GetPut(s, group, key, text, group, key);
    forall g, k | !(g == group && k == key)
      ensures Get(Put(s, group, key, text), g, k) == Get(s, g, k)
    {
      GetPut(s, group, key, text, g, k);
    }
  }

  /** Removing a key that is there takes that key from the cache and leaves every other; the file
      follows if the save succeeds. A key that is not there is an error that changes nothing. */
  lemma RemovalExactly(d: Disk, fd: int, group: string, key: string)
    requires fd in d.handles
    ensures var (d', rc) := RemovedKey(d, fd, group, key);
            var s := d.handles[fd].settings;
            if Get(s, group, key).None? then d' == d && rc == -EINVAL
            else
              && fd in d'.handles
              && d'.handles == d.handles[fd := Handle(d.handles[fd].path, d'.handles[fd].settings)]
              && Get(d'.handles[fd].settings, group, key) == None
              && (forall g, k :: !(g == group && k == key) ==> Get(d'.handles[fd].settings, g, k) == Get(s, g, k))
              && rc == -NextFault(d)
              && d'.files == if rc < 0 then d.files else d.files[d.handles[fd].path := d'.handles[fd].settings]
  {
    var s := d.handles[fd].settings;
    if Get(s, group, key).Some? {
      forall g, k
        ensures Get(WithoutKey(s, group, key), g, k) == if g == group && k == key then None else Get(s, g, k)
      {
        GetWithoutKey(s, group, key, g, k);
      }
    }
  }

  lemma GetWithoutKey(s: Settings, group: string, key: string, group': string, key': string)
    requires Get(s, group, key).Some?
    ensures Get(WithoutKey(s, group, key), group', key') ==
            if group' == group && key' == key then None else Get(s, group', key')
  {
    FindUnique(WithoutKey(s, group, key), group', Find(s, group'));
  }

  /** Opening finds a handle number that is not in use and disturbs no open handle; closing it
      gives back exactly the handles there were. */
  lemma OpenClose(d: Disk, path: string)
    ensures var (d1, fd) := Opened(d, path);
            && (fd < 0 <==> NextFault(d) != 0)
            && (fd < 0 ==> fd == -NextFault(d) && d1.files == d.files && d1.handles == d.handles)
            && (fd >= 0 ==>
                  && fd !in d.handles
                  && d1.handles == d.handles[fd := Handle(path, d1.files[path])]
                  && d1.files == (if path in d.files then d.files else d.files[path := []])
                  && Closed(d1, fd).0.handles == d.handles)
  {
    var (d1, fd) := Opened(d, path);
    if fd >= 0 {
      assert Closed(d1, fd).0.handles == d.handles;
    }
  }

  // ---------- Data item groups ----------

  predicate IsDataItem(name: string) {
    DATA_ITEM_GROUP <= name
  }

  /** The pattern of a valid group name: the prefix followed by one or more digits. */
  predicate WellFormed(name: string) {
    IsDataItem(name) && |name| > |DATA_ITEM_GROUP| &&
    forall i | |DATA_ITEM_GROUP| <= i < |name| :: '0' <= name[i] <= '9'
  }

  function DataItemsOf(s: Settings): Settings {
    if s == [] then []
    else (if IsDataItem(s[0].name) then [s[0]] else []) + DataItemsOf(s[1..])
  }

  /** The last data item name, if there is one. */
  function LastDataItem(names: seq<string>): Option<string> {
    if names == [] then None
    else if IsDataItem(names[|names| - 1]) then Some(names[|names| - 1])
    else LastDataItem(names[..|names| - 1])
  }

  /** The list is refused exactly when its last data item name is malformed. */
  predicate Refused(names: seq<string>) {
    LastDataItem(names).Some? && !WellFormed(LastDataItem(names).value)
  }

  /** What get_data_item_groups does: the cache keeps the data item groups only, in order. */
  function DataItemGroups(d: Disk, fd: int): (Disk, Option<seq<string>>) {
    if fd !in d.handles then (d, None)
    else
      var h := d.handles[fd];
      var kept := DataItemsOf(h.settings);
      (d.(handles := d.handles[fd := Handle(h.path, kept)]),
       if Refused(Names(h.settings)) then None else Some(Names(kept)))
  }

  /** The verdict of check_valid_groups on one position. */
  function CheckedGroup(names: seq<string>, index: nat): int
    requires index < |names|
  {
    if !WellFormed(names[index]) || names[index] in names[index + 1..] then -EINVAL else 0
  }

  /** The value of err after the first n turns of the loop: each data item overwrites it. */
  function ErrAfter(names: seq<string>, n: nat): int
    requires n <= |names|
  {
    if n == 0 then 0
    else if IsDataItem(names[n - 1]) then CheckedGroup(names, n - 1)
    else ErrAfter(names, n - 1)
  }

  lemma {:induction false} ErrAfterIsLast(names: seq<string>, n: nat)
    requires n <= |names|
    requires forall i | n <= i < |names| :: !IsDataItem(names[i])
    ensures (ErrAfter(names, n) < 0) == Refused(names[..n])
  {
    if n > 0 {
      var last := names[n - 1];
      assert names[..n][..n - 1] == names[..n - 1];
      if IsDataItem(last) {
        assert last !in names[n..];
      } else {
        ErrAfterIsLast(names, n - 1);
      }
    }
  }

  lemma FilterTail(s: Settings)
    requires s != []
    ensures DataItemsOf(s) == (if IsDataItem(s[0].name) then [s[0]] else []) + DataItemsOf(s[1..])
  {
    hide IsDataItem;
  }

  lemma {:induction false} DataItemsOfConcat(a: Settings, b: Settings)
    ensures DataItemsOf(a + b) == DataItemsOf(a) + DataItemsOf(b)
  {
    hide IsDataItem, DataItemsOf;
    if a == [] {
      assert a + b == b;
      NoDataItems();
    } else {
      assert (a + b)[1..] == a[1..] + b;
      DataItemsOfConcat(a[1..], b);
      FilterTail(a);
      FilterTail(a + b);
    }
  }

  lemma {:induction false} DataItemsOfKeeps(s: Settings)
    ensures forall i | 0 <= i < |DataItemsOf(s)| :: IsDataItem(DataItemsOf(s)[i].name)
    ensures DataItemsOf(DataItemsOf(s)) == DataItemsOf(s)
  {
    if s != [] {
      DataItemsOfKeeps(s[1..]);
      if IsDataItem(s[0].name) {
        assert DataItemsOf(s) == [s[0]] + DataItemsOf(s[1..]);
        assert DataItemsOf(s)[1..] == DataItemsOf(s[1..]);
      } else {
        assert DataItemsOf(s) == DataItemsOf(s[1..]);
      }
    }
  }

  lemma OneGroup(g: Group)
    ensures DataItemsOf([g]) == if IsDataItem(g.name) then [g] else []
  {
    hide IsDataItem;
    assert [g][1..] == [];
    NoDataItems();
  }

  /** One turn of the loop of get_data_item_groups: removing a name that is not a data item
      removes the group under the cursor, and keeping one advances past it. */
  lemma FilterTurn(s: Settings, i: nat)
    requires i < |s|
    ensures IsDataItem(s[i].name) ==> DataItemsOf(s[..i]) + s[i..] == DataItemsOf(s[..i + 1]) + s[i + 1..]
    ensures !IsDataItem(s[i].name) ==>
              WithoutGroup(DataItemsOf(s[..i]) + s[i..], s[i].name) == DataItemsOf(s[..i + 1]) + s[i + 1..]
  {
    hide IsDataItem, DataItemsOf;
    var kept := DataItemsOf(s[..i]);
    assert s[..i + 1] == s[..i] + [s[i]];
    DataItemsOfConcat(s[..i], [s[i]]);
    OneGroup(s[i]);
    if IsDataItem(s[i].name) {
      assert s[i..] == [s[i]] + s[i + 1..];
    } else {
      DataItemsOfKeeps(s[..i]);
      FindUnique(kept + s[i..], s[i].name, |kept|);
      assert (kept + s[i..])[|kept| + 1..] == s[i + 1..];
    }
  }

  /** Dropping the other groups does not change the verdict. */
  lemma {:induction false} LastDataItemKept(s: Settings)
    ensures LastDataItem(Names(DataItemsOf(s))) == LastDataItem(Names(s))
  {
    if s != [] {
      var front, last := s[..|s| - 1], s[|s| - 1];
      assert s == front + [last];
      DataItemsOfConcat(front, [last]);
      LastDataItemKept(front);
      assert [last][1..] == [];
      assert Names(s)[..|s| - 1] == Names(front);
      var kept := DataItemsOf(s);
      if IsDataItem(last.name) {
        assert kept == DataItemsOf(front) + [last];
      } else {
        assert kept == DataItemsOf(front) + [];
        assert kept == DataItemsOf(front);
      }
    }
  }

  /** The first group of a data item name survives the filter: reading through the name is
      unaffected, and every other name reads as absent. */
  lemma {:induction false} GetAfterFilter(s: Settings, group: string, key: string)
    ensures Get(DataItemsOf(s), group, key) == if IsDataItem(group) then Get(s, group, key) else None
    ensures IsDataItem(group) ==> (Find(DataItemsOf(s), group) < |DataItemsOf(s)| <==> Find(s, group) < |s|)
    ensures !IsDataItem(group) ==> Find(DataItemsOf(s), group) == |DataItemsOf(s)|
  {
    hide IsDataItem;
    if s != [] {
      GetAfterFilter(s[1..], group, key);
      FilterStep(s);
      FindStep(s, group, key);
      FindStep(DataItemsOf(s), group, key);
    }
  }

  lemma NoDataItems()
    ensures DataItemsOf([]) == []
  {
  }

  lemma FilterStep(s: Settings)
    requires s != []
    ensures IsDataItem(s[0].name) ==>
              DataItemsOf(s) != [] && DataItemsOf(s)[0] == s[0] && DataItemsOf(s)[1..] == DataItemsOf(s[1..])
    ensures !IsDataItem(s[0].name) ==> DataItemsOf(s) == DataItemsOf(s[1..])
  {
  }

  lemma FindStep(s: Settings, group: string, key: string)
    ensures s != [] && s[0].name != group ==>
              Find(s, group) == 1 + Find(s[1..], group) && Get(s, group, key) == Get(s[1..], group, key)
    ensures s != [] && s[0].name == group ==>
              Find(s, group) == 0 && Get(s, group, key) == if key in s[0].keys then Some(s[0].keys[key]) else None
  {
  }

  /** For distinct, well-formed data item names the call returns precisely the data item names
      of the settings in their order, and the cache holds precisely those groups. */
  lemma DataItemGroupsOfGoodFile(d: Disk, fd: int)
    requires fd in d.handles
    requires forall g | g in d.handles[fd].settings && IsDataItem(g.name) :: WellFormed(g.name)
    ensures DataItemGroups(d, fd).1 == Some(Names(DataItemsOf(d.handles[fd].settings)))
    ensures DataItemGroups(d, fd).0.handles[fd].settings == DataItemsOf(d.handles[fd].settings)
  {
    var s := d.handles[fd].settings;
    LastDataItemIn(Names(s));
    if LastDataItem(Names(s)).Some? {
      var i :| 0 <= i < |s| && Names(s)[i] == LastDataItem(Names(s)).value;
      assert s[i] in s;
    }
  }

  lemma {:induction false} LastDataItemIn(names: seq<string>)
    ensures LastDataItem(names).Some? ==> LastDataItem(names).value in names && IsDataItem(LastDataItem(names).value)
    ensures LastDataItem(names).None? ==> forall n | n in names :: !IsDataItem(n)
  {
    if names != [] {
      LastDataItemIn(names[..|names| - 1]);
      assert names == names[..|names| - 1] + [names[|names| - 1]];
    }
  }

  /** The check for repeated names never has an effect: a file that repeats a group, or that
      has a malformed group before its last one, is accepted. */
  lemma RepeatedGroupAccepted(keys: map<string, string>)
    ensures var s := [Group("DataItem_x", keys), Group("DataItem_1", keys), Group("DataItem_1", keys)];
            var d := Disk(map[], map[3 := Handle("device.conf", s)], []);
            CheckedGroup(Names(s), 0) < 0 && CheckedGroup(Names(s), 1) < 0 &&
            DataItemGroups(d, 3).1 == Some(["DataItem_x", "DataItem_1", "DataItem_1"])
  {
    var s := [Group("DataItem_x", keys), Group("DataItem_1", keys), Group("DataItem_1", keys)];
    assert Names(s) == ["DataItem_x", "DataItem_1", "DataItem_1"];
    assert "DataItem_x"[9] == 'x' && "DataItem_1"[9] == '1';
    assert Names(s)[2..] == ["DataItem_1"];
    assert "DataItem_1"[..9] == DATA_ITEM_GROUP && "DataItem_x"[..9] == DATA_ITEM_GROUP;
    assert DataItemsOf(s[3..]) == [];
    assert s[2..][1..] == s[3..] && s[1..][1..] == s[2..];
    assert DataItemsOf(s[2..]) == [s[2]];
    assert DataItemsOf(s[1..]) == [s[1], s[2]];
    assert DataItemsOf(s) == s;
  }

  // ---------- The handle table as an object ----------

  class StorageList {
    const platform: Platform
    var files: map<string, Settings>
    var handles: map<int, Handle>
    var faults: seq<nat>

    function View(): Disk
      reads this
    {
      Disk(files, handles, faults)
    }

    constructor (p: Platform, disk: Disk)
      ensures platform == p && View() == disk
    {
      platform := p;
      files, handles, faults := disk.files, disk.handles, disk.faults;
    }

    method TakeFault() returns (e: int)
      modifies this`faults
      ensures e == NextFault(old(View())) && View() == AfterFault(old(View()))
    {
      e := 0;
      if faults != [] {
        e, faults := faults[0], faults[1..];
      }
    }

    /** Whether the setter of the settings library returns false. */
    method SetterRefuses() returns (refused: bool)
      modifies this`faults
      ensures refused == (NextFault(old(View())) == REFUSED)
      ensures View() == if refused then AfterFault(old(View())) else old(View())
    {
      refused := faults != [] && faults[0] == REFUSED;
      if refused {
        faults := faults[1..];
      }
    }

    method Open(path: string) returns (fd: int)
      modifies this
      ensures (View(), fd) == Opened(old(View()), path)
    {
      var e := TakeFault();
      if e != 0 {
        return -e;
      }
      fd := LowestFree(handles.Keys, 3);
      if path !in files {
        files := files[path := []];
      }
      handles := handles[fd := Handle(path, files[path])];
    }

    method Close(fd: int) returns (rc: int)
      modifies this
      ensures (View(), rc) == Closed(old(View()), fd)
    {
      if fd !in handles {
        return -ENOENT;
      }
      handles := handles - {fd};
      rc := 0;
    }

    method SaveSettings(fd: int, settings: Settings) returns (err: int)
      requires fd in handles
      modifies this
      ensures (View(), err) == Saved(old(View()), fd, settings)
    {
      handles := handles[fd := Handle(handles[fd].path, settings)];
      var e := TakeFault();
      if e != 0 {
        return -e;
      }
      files := files[handles[fd].path := handles[fd].settings];
      err := 0;
    }

    method WriteKeyString(fd: int, group: string, key: string, value: string) returns (rc: int)
      modifies this
      ensures (View(), rc) == WrittenString(old(View()), fd, group, key, value)
    {
      if fd !in handles {
        return -EIO;
      }
      var refused := SetterRefuses();
      if refused {
        return -EINVAL;
      }
      rc := SaveSettings(fd, Put(handles[fd].settings, group, key, value));
    }

    /** The six typed writers, which differ in how the value is printed. */
    method WriteKeyScalar(fd: int, group: string, key: string, value: Scalar) returns (rc: int)
      modifies this
      ensures (View(), rc) == WrittenScalar(platform, old(View()), fd, group, key, value)
    {
      if fd !in handles {
        return -EINVAL;
      }
      var refused := SetterRefuses();
      if refused {
        return -EINVAL;
      }
      rc := SaveSettings(fd, Put(handles[fd].settings, group, key, platform.show(value)));
    }

    method RemoveKey(fd: int, group: string, key: string) returns (rc: int)
      modifies this
      ensures (View(), rc) == RemovedKey(old(View()), fd, group, key)
    {
      if fd !in handles || Get(handles[fd].settings, group, key).None? {
        return -EINVAL;
      }
      rc := SaveSettings(fd, WithoutKey(handles[fd].settings, group, key));
    }

    method CheckValidGroups(names: seq<string>, index: nat) returns (rc: int)
      requires index < |names|
      ensures rc == CheckedGroup(names, index)
    {
      if !WellFormed(names[index]) {
        return -EINVAL;
      }
      for i := index + 1 to |names|
        invariant names[index] !in names[index + 1..i]
      {
        if names[i] == names[index] {
          assert names[index + 1..][i - index - 1] == names[index];
          return -EINVAL;
        }
        assert names[index + 1..i + 1] == names[index + 1..i] + [names[i]];
      }
      assert names[index + 1..|names|] == names[index + 1..];
      rc := 0;
    }

    /** The loop removes, by name, each group that is not a data item; the result is the
        order-preserving filter, refused exactly when the last data item is malformed. */
    method GetDataItemGroups(fd: int) returns (groups: Option<seq<string>>)
      modifies this
      ensures (View(), groups) == DataItemGroups(old(View()), fd)
    {
      hide IsDataItem, WellFormed, CheckedGroup, DataItemsOf, WithoutGroup, Refused, Names;
      if fd !in handles {
        return None;
      }
      var err := 0;
      ghost var s := handles[fd].settings;
      var names := Names(handles[fd].settings);
      NoDataItems();
      assert s[..0] == [] && s == DataItemsOf([]) + s[0..];
      for i := 0 to |names|
        invariant fd in handles && files == old(files) && faults == old(faults)
        invariant handles == old(handles)[fd := Handle(old(handles)[fd].path, DataItemsOf(s[..i]) + s[i..])]
        invariant err == ErrAfter(names, i)
      {
        FilterTurn(s, i);
        if !IsDataItem(names[i]) {
          handles := handles[fd := Handle(handles[fd].path, WithoutGroup(handles[fd].settings, names[i]))];
        } else {
          err := CheckValidGroups(names, i);
        }
      }
      assert s[..|s|] == s && DataItemsOf(s) + s[|s|..] == DataItemsOf(s);
      ErrAfterIsLast(names, |names|);
      assert names[..|names|] == names;
      groups := if err < 0 then None else Some(Names(handles[fd].settings));
    }
  }
}
