/**
  The credential store of src/properties.c: storing with rollback, clearing and loading the
  id and the token of the thing in its credentials file.
*/
module Credentials {
  import opened KnotTypes
  import opened Storage
  import opened Thing

  const GROUP := "Credentials"
  const THING_ID := "ThingId"
  const THING_TOKEN := "ThingToken"

  /** What a file holds under a credentials key. */
  function OnDisk(d: Disk, path: string, key: string): Option<string> {
    if path in d.files then Get(d.files[path], GROUP, key) else None
  }

  /** One write to the credentials group, seen from its two keys. */
  lemma CredentialWrite(d: Disk, fd: int, key: string, text: string, other: string)
    requires fd in d.handles && other != key
    ensures var (d', rc) := WrittenString(d, fd, GROUP, key, text);
            var s, s' := d.handles[fd].settings, d'.handles[fd].settings;
            && d'.handles == d.handles[fd := Handle(d.handles[fd].path, s')]
            && d'.faults == AfterFault(d).faults
            && Get(s', GROUP, key) == (if NextFault(d) == REFUSED then Get(s, GROUP, key) else Some(text))
            && Get(s', GROUP, other) == Get(s, GROUP, other)
            && (rc < 0 <==> NextFault(d) != 0)
            && d'.files == if rc < 0 then d.files else d.files[d.handles[fd].path := s']
  {
    GetPut(d.handles[fd].settings, GROUP, key, text, GROUP, key);
    GetPut(d.handles[fd].settings, GROUP, key, text, GROUP, other);
  }

  // ---------- Storing ----------

  function StoredCredentials(p: Platform, d: Disk, path: string, id: string, token: string): (Disk, int) {
    if |token| > p.tokenLen then (d, -EINVAL)
    else
      var (d1, fd) := Opened(d, path);
      if fd < 0 then (d1, fd)
      else
        var (d2, rc2) := WrittenString(d1, fd, GROUP, THING_TOKEN, token);
        if rc2 < 0 then (Closed(d2, fd).0, -EINVAL)
        else
          var (d3, rc3) := WrittenString(d2, fd, GROUP, THING_ID, id);
          if rc3 < 0 then (Closed(WrittenString(d3, fd, GROUP, THING_TOKEN, "").0, fd).0, -EINVAL)
          else (Closed(d3, fd).0, rc3)
  }

  method StoreCredentials(p: Platform, storage: StorageList, path: string, id: string, token: string) returns (rc: int)
    modifies storage
    ensures (storage.View(), rc) == StoredCredentials(p, old(storage.View()), path, id, token)
  {
    if |token| > p.tokenLen {
      return -EINVAL;
    }
    var fd := storage.Open(path);
    if fd < 0 {
      return fd;
    }
    rc := storage.WriteKeyString(fd, GROUP, THING_TOKEN, token);
    if rc >= 0 {
      rc := storage.WriteKeyString(fd, GROUP, THING_ID, id);
      if rc >= 0 {
        var _ := storage.Close(fd);
        return;
      }
      var _ := storage.WriteKeyString(fd, GROUP, THING_TOKEN, "");
    }
    var _ := storage.Close(fd);
    rc := -EINVAL;
  }

  /** The token can be written, but neither the id nor then the empty token. */
  predicate RollbackFails(p: Platform, d: Disk, token: string) {
    && |token| <= p.tokenLen
    && |d.faults| >= 4 && d.faults[0] == 0 && d.faults[1] == 0 && d.faults[2] != 0 && d.faults[3] != 0
  }

  /** What storing does for every outcome of the file operations. Success puts both on disk.
      Failure leaves the token on disk as it was, or empty because the rollback ran, or, only
      when the write of the id and the rollback both failed, as the new token. The open handles
      and the other files are untouched. */
  lemma StoreOutcome(p: Platform, d: Disk, path: string, id: string, token: string)
    ensures var (d', rc) := StoredCredentials(p, d, path, id, token);
            && d'.handles == d.handles
            && (forall f | f != path :: f in d'.files <==> f in d.files)
            && (forall f | f != path && f in d.files :: d'.files[f] == d.files[f])
            && (rc >= 0 <==> |token| <= p.tokenLen && Healthy(d.faults, 3))
            && (rc >= 0 ==> OnDisk(d', path, THING_TOKEN) == Some(token) && OnDisk(d', path, THING_ID) == Some(id))
            && (rc < 0 && !RollbackFails(p, d, token) ==>
                  OnDisk(d', path, THING_TOKEN) == OnDisk(d, path, THING_TOKEN) || OnDisk(d', path, THING_TOKEN) == Some(""))
            && (RollbackFails(p, d, token) ==> rc < 0 && OnDisk(d', path, THING_TOKEN) == Some(token))
            && (OnDisk(d, path, THING_ID).Some? ==> OnDisk(d', path, THING_ID).Some?)
  {
    hide Opened, Closed, Written, WrittenString, Get, RestOf, FirstOf, Healthy;
    HealthyThree(d.faults);
    FaultsInOrder(d.faults);
    assert THING_ID != THING_TOKEN by { assert |THING_ID| != |THING_TOKEN|; }
    OpenFaults(d, path);
    FreshFileIsEmpty();
    OpenClose(d, path);
    var (d1, fd) := Opened(d, path);
    if |token| <= p.tokenLen && fd >= 0 {
      CredentialWrite(d1, fd, THING_TOKEN, token, THING_ID);
      var (d2, rc2) := WrittenString(d1, fd, GROUP, THING_TOKEN, token);
      CloseHandle(d2, fd);
      assert d2.handles - {fd} == d.handles;
      CredentialWrite(d2, fd, THING_ID, id, THING_TOKEN);
      var (d3, rc3) := WrittenString(d2, fd, GROUP, THING_ID, id);
      CloseHandle(d3, fd);
      assert d3.handles - {fd} == d.handles;
      CredentialWrite(d3, fd, THING_TOKEN, "", THING_ID);
      var (d4, rc4) := WrittenString(d3, fd, GROUP, THING_TOKEN, "");
      CloseHandle(d4, fd);
      assert d4.handles - {fd} == d.handles;
    }
  }

  lemma FreshFileIsEmpty()
    ensures Get([], GROUP, THING_TOKEN) == None && Get([], GROUP, THING_ID) == None
  {
  }

  lemma OpenFaults(d: Disk, path: string)
    ensures Opened(d, path).0.faults == AfterFault(d).faults
    ensures Opened(d, path).1 < 0 <==> NextFault(d) != 0
    ensures Opened(d, path).1 < 0 ==> Opened(d, path).0 == AfterFault(d)
    ensures forall f | f != path :: (f in Opened(d, path).0.files <==> f in d.files)
    ensures forall f | f != path && f in d.files :: Opened(d, path).0.files[f] == d.files[f]
    ensures path !in d.files && Opened(d, path).1 >= 0 ==> Opened(d, path).0.files == d.files[path := []]
  {
  }

  lemma CloseHandle(d: Disk, fd: int)
    requires fd in d.handles
    ensures Closed(d, fd).0 == d.(handles := d.handles - {fd})
  {
  }

  lemma FaultsInOrder(faults: seq<nat>)
    ensures FirstOf(RestOf(RestOf(RestOf(faults)))) == if |faults| > 3 then faults[3] else 0
    ensures FirstOf(RestOf(RestOf(faults))) == if |faults| > 2 then faults[2] else 0
    ensures FirstOf(RestOf(faults)) == if |faults| > 1 then faults[1] else 0
    ensures FirstOf(faults) == if |faults| > 0 then faults[0] else 0
  {
  }

  // ---------- Clearing ----------

  function ClearedCredentials(t: ThingState, d: Disk, path: string): (ThingState, Disk, int) {
    var (d1, fd) := Opened(d, path);
    if fd < 0 then (t, d1, fd)
    else
      var (d2, rc2) := WrittenString(d1, fd, GROUP, THING_TOKEN, "");
      if rc2 < 0 then (t, Closed(d2, fd).0, -EINVAL)
      else
        var (d3, rc3) := WrittenString(d2, fd, GROUP, THING_ID, "");
        if rc3 < 0 then (t.(token := ""), Closed(d3, fd).0, -EINVAL)
        else (t.(token := "", id := ""), Closed(d3, fd).0, rc3)
  }

  method ClearCredentials(thing: KnotThing, storage: StorageList, path: string) returns (rc: int)
    modifies thing, storage
    ensures (thing.View(), storage.View(), rc) == ClearedCredentials(old(thing.View()), old(storage.View()), path)
  {
    var fd := storage.Open(path);
    if fd < 0 {
      return fd;
    }
    rc := EraseToken(thing, storage, fd);
    if rc >= 0 {
      rc := EraseId(thing, storage, fd);
      if rc >= 0 {
        var _ := storage.Close(fd);
        return;
      }
    }
    var _ := storage.Close(fd);
    rc := -EINVAL;
  }

  method EraseToken(thing: KnotThing, storage: StorageList, fd: int) returns (rc: int)
    modifies thing, storage
    ensures (storage.View(), rc) == WrittenString(old(storage.View()), fd, GROUP, THING_TOKEN, "")
    ensures thing.View() == if rc < 0 then old(thing.View()) else old(thing.View()).(token := "")
  {
    rc := storage.WriteKeyString(fd, GROUP, THING_TOKEN, "");
    if rc >= 0 {
      thing.ClearToken();
    }
  }

  method EraseId(thing: KnotThing, storage: StorageList, fd: int) returns (rc: int)
    modifies thing, storage
    ensures (storage.View(), rc) == WrittenString(old(storage.View()), fd, GROUP, THING_ID, "")
    ensures thing.View() == if rc < 0 then old(thing.View()) else old(thing.View()).(id := "")
  {
    rc := storage.WriteKeyString(fd, GROUP, THING_ID, "");
    if rc >= 0 {
      thing.ClearId();
    }
  }

  /** Clearing keeps memory and disk in step for every outcome of the file operations: each of
      token and id is either emptied in both places or left alone in both. */
  lemma ClearOutcome(t: ThingState, d: Disk, path: string)
    ensures var (t', d', rc) := ClearedCredentials(t, d, path);
            && d'.handles == d.handles
            && t' == t.(token := t'.token, id := t'.id)
            && (forall f | f != path :: f in d'.files <==> f in d.files)
            && (forall f | f != path && f in d.files :: d'.files[f] == d.files[f])
            && ((t'.token == "" && OnDisk(d', path, THING_TOKEN) == Some("")) ||
                (t'.token == t.token && OnDisk(d', path, THING_TOKEN) == OnDisk(d, path, THING_TOKEN)))
            && ((t'.id == "" && OnDisk(d', path, THING_ID) == Some("")) ||
                (t'.id == t.id && OnDisk(d', path, THING_ID) == OnDisk(d, path, THING_ID)))
            && (rc >= 0 <==> Healthy(d.faults, 3))
            && (rc >= 0 ==>
                  && t'.token == "" && OnDisk(d', path, THING_TOKEN) == Some("")
                  && t'.id == "" && OnDisk(d', path, THING_ID) == Some(""))
            && (t'.token == t.token || t'.token == "")
  {
    hide Opened, Closed, Written, WrittenString, Get, RestOf, FirstOf, Healthy;
    HealthyThree(d.faults);
    assert THING_ID != THING_TOKEN by { assert |THING_ID| != |THING_TOKEN|; }
    OpenFaults(d, path);
    FreshFileIsEmpty();
    OpenClose(d, path);
    var (d1, fd) := Opened(d, path);
    if fd >= 0 {
      CredentialWrite(d1, fd, THING_TOKEN, "", THING_ID);
      var (d2, rc2) := WrittenString(d1, fd, GROUP, THING_TOKEN, "");
      CloseHandle(d2, fd);
      assert d2.handles - {fd} == d.handles;
      CredentialWrite(d2, fd, THING_ID, "", THING_TOKEN);
      var (d3, rc3) := WrittenString(d2, fd, GROUP, THING_ID, "");
      CloseHandle(d3, fd);
      assert d3.handles - {fd} == d.handles;
    }
  }

  // ---------- Loading ----------

  /** How a call into properties.c ends. A NULL pointer that the source dereferences is an
      outcome of its own. */
  datatype Outcome = Done(rc: int) | NullDereference

  function LoadedCredentials(p: Platform, t: ThingState, d: Disk, path: string): (ThingState, Disk, Outcome) {
    var (d1, fd) := Opened(d, path);
    if fd < 0 then (t, d1, Done(fd))
    else
      var id, token := ReadString(d1, fd, GROUP, THING_ID), ReadString(d1, fd, GROUP, THING_TOKEN);
      if id.None? || token.None? then (t, d1, NullDereference)
      else (WithCredentials(p, t, id.value, token.value), Closed(d1, fd).0, Done(0))
  }

  method LoadCredentials(p: Platform, thing: KnotThing, storage: StorageList, path: string) returns (outcome: Outcome)
    modifies thing, storage
    ensures (thing.View(), storage.View(), outcome) ==
            LoadedCredentials(p, old(thing.View()), old(storage.View()), path)
  {
    var fd := storage.Open(path);
    if fd < 0 {
      return Done(fd);
    }
    var id, token := ReadString(storage.View(), fd, GROUP, THING_ID), ReadString(storage.View(), fd, GROUP, THING_TOKEN);
    if id.None? || token.None? {
      return NullDereference;
    }
    thing.SetCredentials(p, id.value, token.value);
    var _ := storage.Close(fd);
    outcome := Done(0);
  }

  /** What a load that returns finds in memory is what is on disk, cut to the buffers. */
  lemma LoadOutcome(p: Platform, t: ThingState, d: Disk, path: string)
    ensures var (t', d', outcome) := LoadedCredentials(p, t, d, path);
            && (outcome.Done? ==> d'.handles == d.handles && outcome.rc == -NextFault(d))
            && d'.faults == RestOf(d.faults)
            && t' == t.(token := t'.token, id := t'.id)
            && d'.files in {d.files, d.files[path := if path in d.files then d.files[path] else []]}
            && (outcome == Done(0) ==>
                  && OnDisk(d, path, THING_TOKEN).Some? && OnDisk(d, path, THING_ID).Some?
                  && t'.token == Fitted(OnDisk(d, path, THING_TOKEN).value, p.tokenLen)
                  && t'.id == Fitted(OnDisk(d, path, THING_ID).value, p.uuidLen))
            && (outcome == NullDereference <==>
                  NextFault(d) == 0 &&
                  (OnDisk(d, path, THING_TOKEN).None? || OnDisk(d, path, THING_ID).None?))
  {
    OpenClose(d, path);
    assert path in d.files ==> d.files[path := d.files[path]] == d.files;
  }

  /** Storing and then loading gives the same credentials back, if they fit their buffers. */
  lemma StoreThenLoad(p: Platform, t: ThingState, d: Disk, path: string, id: string, token: string)
    requires |id| <= p.uuidLen
    ensures var (d', rc) := StoredCredentials(p, d, path, id, token);
            rc >= 0 && NextFault(d') == 0 ==>
              LoadedCredentials(p, t, d', path).0 == t.(id := id, token := token) &&
              LoadedCredentials(p, t, d', path).2 == Done(0)
  {
    var (d', rc) := StoredCredentials(p, d, path, id, token);
    StoreOutcome(p, d, path, id, token);
    LoadOutcome(p, t, d', path);
  }
}
