/**
 The durable credential store: an in-memory list of passkeys and the file it is persisted to by writing
 a temporary sibling and renaming it over the store.

 A disk is the directory's files by name. Every method that touches the disk records in `trace` each state
 the directory goes through, so that a crash at any moment leaves one of the recorded states. What the
 operating system answers is an `Io`; the document codec and the WebAuthn record update are parameters.
 */
module PasskeyStore {
  import opened Core

  const STORE_VERSION: nat := 1
  const MAX_STORE_BYTES: nat := 1024 * 1024

  type Files = map<string, seq<byte>>

  /** A registered credential: its id, its signature counter and the rest of the record. */
  datatype Passkey = Passkey(id: seq<byte>, counter: nat, record: seq<byte>)

  /** The outcome of a WebAuthn authentication ceremony. */
  datatype Authentication = Authentication(id: seq<byte>, counter: nat, record: seq<byte>)

  datatype Document = Document(version: nat, passkeys: seq<Passkey>)

  datatype AuthError = VerifierUnavailable | VerificationFailed | CredentialConflict

  datatype Result<T> = Ok(value: T) | Err(error: AuthError)

  /** The code this store relies on: the document codec and the credential update. */
  datatype Library = Library(
    encode: Document -> Option<seq<byte>>,
    decode: seq<byte> -> Option<Document>,
    update: (Passkey, Authentication) -> Option<Passkey>)
  {
    /** Every document can be written, with at least one byte for each credential. */
    ghost predicate Grows() {
      forall d: Document :: encode(d).Some? && |encode(d).value| >= |d.passkeys|
    }

    /** Decoding inverts encoding; an update keeps the credential and never lowers its counter. */
    ghost predicate Sound() {
      && (forall d: Document :: encode(d).Some? ==> decode(encode(d).value) == Some(d))
      && (forall p: Passkey, a: Authentication :: update(p, a).Some? ==>
            update(p, a).value.id == p.id && update(p, a).value.counter >= p.counter)
    }
  }

  /** What the system answers during one persist: the random suffix, whether the exclusive create succeeds,
      how many bytes get written, and whether sync, rename and removal succeed. */
  datatype Io = Io(suffix: Option<string>, created: bool, written: nat, synced: bool, renamed: bool, removed: bool)

  function TempName(name: string, suffix: string): (temp: string)
    ensures temp != name
  {
    "." + name + "." + suffix + ".tmp"
  }

  // ---- The disk -----------------------------------------------------------------------------

  class Disk {
    var files: Files
    var trace: seq<Files>

    constructor (initial: Files)
      ensures files == initial && trace == []
    {
      files, trace := initial, [];
    }

    /** Exclusive creation: fails when the path exists. */
    method CreateNew(path: string, allowed: bool) returns (ok: bool)
      modifies this
      ensures ok == (allowed && path !in old(files))
      ensures files == if ok then old(files)[path := []] else old(files)
      ensures trace == old(trace) + (if ok then [files] else [])
    {
      ok := allowed && path !in files;
      if ok {
        files := files[path := []];
        trace := trace + [files];
      }
    }

    /** Writes at most `budget` bytes; a crash may leave any shorter prefix. */
    method WriteAll(path: string, bytes: seq<byte>, budget: nat) returns (ok: bool)
      modifies this
      ensures ok == (|bytes| <= budget)
      ensures files == old(files)[path := bytes[..Written(bytes, budget)]]
      ensures trace == old(trace) + Prefixes(old(files), path, bytes, Written(bytes, budget))
    {
      var n := Written(bytes, budget);
      trace := trace + Prefixes(files, path, bytes, n);
      files := files[path := bytes[..n]];
      ok := |bytes| <= budget;
    }

    method Rename(source: string, target: string, allowed: bool) returns (ok: bool)
      requires source in files
      modifies this
      ensures ok == allowed
      ensures files == if ok then Renamed(old(files), source, target) else old(files)
      ensures trace == old(trace) + (if ok then [files] else [])
    {
      ok := allowed;
      if ok {
        files := Renamed(files, source, target);
        trace := trace + [files];
      }
    }

    method RemoveFile(path: string, allowed: bool)
      modifies this
      ensures files == if allowed then old(files) - {path} else old(files)
      ensures trace == old(trace) + (if allowed then [files] else [])
    {
      if allowed {
        files := files - {path};
        trace := trace + [files];
      }
    }
  }

  function Written(bytes: seq<byte>, budget: nat): (n: nat)
    ensures n <= |bytes|
  {
    if budget < |bytes| then budget else |bytes|
  }

  function Prefixes(files: Files, path: string, bytes: seq<byte>, n: nat): (states: seq<Files>)
    requires n <= |bytes|
    ensures |states| == n + 1
    ensures forall k :: 0 <= k <= n ==> states[k] == files[path := bytes[..k]]
  {
    seq(n + 1, k requires 0 <= k <= n => files[path := bytes[..k]])
  }

  function Renamed(files: Files, source: string, target: string): (r: Files)
    requires source in files
  {
    (files - {source})[target := files[source]]
  }

  // ---- What the disk says -------------------------------------------------------------------

  function Entry(files: Files, name: string): (r: Option<seq<byte>>) {
    if name in files then Some(files[name]) else None
  }

  /** Startup: a missing file is an empty store; an oversized, malformed or unknown document is refused. */
  function Load(files: Files, name: string, lib: Library): (r: Result<seq<Passkey>>) {
    if name !in files then Ok([])
    else if |files[name]| > MAX_STORE_BYTES then Err(VerifierUnavailable)
    else
      var document := lib.decode(files[name]);
      if document.None? || document.value.version != STORE_VERSION then Err(VerifierUnavailable)
      else Ok(document.value.passkeys)
  }

  /** The credentials the store file records, whatever its size. */
  ghost predicate Records(files: Files, name: string, lib: Library, passkeys: seq<Passkey>) {
    if name in files then lib.decode(files[name]) == Some(Document(STORE_VERSION, passkeys)) else passkeys == []
  }

  ghost predicate Fits(files: Files, name: string) {
    name in files ==> |files[name]| <= MAX_STORE_BYTES
  }

  /** A recorded store loads to exactly what it records if and only if it fits. */
  lemma LoadIff(files: Files, name: string, lib: Library, passkeys: seq<Passkey>)
    requires Records(files, name, lib, passkeys)
    ensures Load(files, name, lib) == if Fits(files, name) then Ok(passkeys) else Err(VerifierUnavailable)
  {
  }

  /** Which stores load, and to what: a missing file to nothing, a file of at most one mebibyte that holds a version 1
      document to its credentials, and nothing else at all. */
  lemma LoadOkIff(files: Files, name: string, lib: Library, passkeys: seq<Passkey>)
    ensures Load(files, name, lib) == Ok(passkeys) <==>
              || (name !in files && passkeys == [])
              || (name in files && |files[name]| <= 1_048_576 && lib.decode(files[name]) == Some(Document(1, passkeys)))
  {
  }

  // ---- One persist --------------------------------------------------------------------------

  function WriteSucceeds(files: Files, temp: string, bytes: seq<byte>, io: Io): (r: bool) {
    io.created && temp !in files && |bytes| <= io.written && io.synced
  }

  /** The states of the temporary file's life up to the end of the write. */
  function WriteTrace(files: Files, temp: string, bytes: seq<byte>, io: Io): (trace: seq<Files>)
    ensures WriteSucceeds(files, temp, bytes, io) ==> LastOr(trace, files) == files[temp := bytes]
    ensures forall k, path :: 0 <= k < |trace| && path != temp ==> Entry(trace[k], path) == Entry(files, path)
  {
    assert bytes[..|bytes|] == bytes;
    if !io.created || temp in files then []
    else
      var created := files[temp := []];
      [created] + Prefixes(created, temp, bytes, Written(bytes, io.written))
  }

  function LastOr<T>(s: seq<T>, x: T): (r: T) {
    if |s| == 0 then x else s[|s| - 1]
  }

  function PersistSucceeds(files: Files, name: string, bytes: Option<seq<byte>>, io: Io): (r: bool) {
    bytes.Some? && io.suffix.Some? && WriteSucceeds(files, TempName(name, io.suffix.value), bytes.value, io) && io.renamed
  }

  /** Every state one persist takes the disk through. */
  function PersistTrace(files: Files, name: string, bytes: Option<seq<byte>>, io: Io): (trace: seq<Files>) {
    if bytes.None? || io.suffix.None? then []
    else
      var temp := TempName(name, io.suffix.value);
      var writing := WriteTrace(files, temp, bytes.value, io);
      var written := LastOr(writing, files);
      if WriteSucceeds(files, temp, bytes.value, io) && io.renamed then
        writing + [Renamed(written, temp, name)]
      else if io.removed then writing + [written - {temp}]
      else writing
  }

  /** A persist that succeeds leaves the directory as it was but for the store file. */
  lemma PersistInstalls(files: Files, name: string, bytes: Option<seq<byte>>, io: Io)
    requires PersistSucceeds(files, name, bytes, io)
    ensures LastOr(PersistTrace(files, name, bytes, io), files) == files[name := bytes.value]
  {
    var temp := TempName(name, io.suffix.value);
    assert Renamed(files[temp := bytes.value], temp, name) == files[name := bytes.value];
  }

  /** All or nothing: the store file keeps its old content through every state of a persist but the last, and
      through all of them unless the persist succeeds; then the last state holds the new content. */
  lemma PersistIsAtomic(files: Files, name: string, bytes: Option<seq<byte>>, io: Io, k: nat)
    requires k < |PersistTrace(files, name, bytes, io)|
    ensures var trace := PersistTrace(files, name, bytes, io);
            Entry(trace[k], name) ==
            if PersistSucceeds(files, name, bytes, io) && k == |trace| - 1 then bytes else Entry(files, name)
  {
    if PersistSucceeds(files, name, bytes, io) {
      PersistInstalls(files, name, bytes, io);
    }
  }

  /** After a persist the store file has the new content if it succeeded, and the old one otherwise. */
  lemma PersistShows(files: Files, name: string, bytes: Option<seq<byte>>, io: Io)
    ensures var trace := PersistTrace(files, name, bytes, io);
            Entry(LastOr(trace, files), name) == if PersistSucceeds(files, name, bytes, io) then bytes else Entry(files, name)
  {
    var trace := PersistTrace(files, name, bytes, io);
    if |trace| > 0 {
      PersistIsAtomic(files, name, bytes, io, |trace| - 1);
    }
    if PersistSucceeds(files, name, bytes, io) {
      PersistInstalls(files, name, bytes, io);
    }
  }

  // ---- Requests -----------------------------------------------------------------------------

  datatype Request = Register(passkey: Passkey) | Authenticate(result: Authentication)

  /** Position of the first credential with the id, or the length of the list. */
  function Find(passkeys: seq<Passkey>, id: seq<byte>): (i: nat)
    ensures i <= |passkeys|
    ensures i < |passkeys| ==> passkeys[i].id == id
    ensures forall j :: 0 <= j < i ==> passkeys[j].id != id
  {
    if |passkeys| == 0 || passkeys[0].id == id then 0 else 1 + Find(passkeys[1..], id)
  }

  /** The list a request asks to store. */
  function Requested(passkeys: seq<Passkey>, request: Request, lib: Library): (r: Result<seq<Passkey>>) {
    match request
    case Register(passkey) =>
      if Find(passkeys, passkey.id) < |passkeys| then Err(CredentialConflict) else Ok(passkeys + [passkey])
    case Authenticate(result) =>
      var i := Find(passkeys, result.id);
      if i == |passkeys| then Err(VerificationFailed)
      else
        var updated := lib.update(passkeys[i], result);
        if updated.None? then Err(VerificationFailed) else Ok(passkeys[i := updated.value])
  }

  /** Position `i` holds the first credential with the id. */
  ghost predicate IsFirst(passkeys: seq<Passkey>, id: seq<byte>, i: int) {
    0 <= i < |passkeys| && passkeys[i].id == id && forall j :: 0 <= j < i ==> passkeys[j].id != id
  }

  ghost predicate Known(passkeys: seq<Passkey>, id: seq<byte>) {
    exists i :: 0 <= i < |passkeys| && passkeys[i].id == id
  }

  /** A registration appends the whole passkey, and is refused exactly if its id is known. */
  lemma RegisterRequests(passkeys: seq<Passkey>, passkey: Passkey, lib: Library)
    ensures Requested(passkeys, Register(passkey), lib)
         == if Known(passkeys, passkey.id) then Err(CredentialConflict) else Ok(passkeys + [passkey])
  {
    if Find(passkeys, passkey.id) < |passkeys| {
      assert passkeys[Find(passkeys, passkey.id)].id == passkey.id;
    }
  }

  /** An authentication replaces the first credential with the id by its update, and is refused exactly if there is
      none or it refuses the update. */
  lemma AuthenticateRequests(passkeys: seq<Passkey>, result: Authentication, lib: Library)
    ensures !Known(passkeys, result.id) ==> Requested(passkeys, Authenticate(result), lib) == Err(VerificationFailed)
    ensures forall i :: IsFirst(passkeys, result.id, i) ==>
              Requested(passkeys, Authenticate(result), lib)
              == if lib.update(passkeys[i], result).None? then Err(VerificationFailed)
                 else Ok(passkeys[i := lib.update(passkeys[i], result).value])
    ensures Known(passkeys, result.id) ==> exists i :: IsFirst(passkeys, result.id, i)
  {
    var i := Find(passkeys, result.id);
    if i < |passkeys| {
      assert IsFirst(passkeys, result.id, i);
    }
  }

  function Encoded(passkeys: seq<Passkey>, lib: Library): (r: Option<seq<byte>>) {
    lib.encode(Document(STORE_VERSION, passkeys))
  }

  /** Does the request end in `Ok`? */
  function Succeeds(passkeys: seq<Passkey>, files: Files, name: string, lib: Library, request: Request, io: Io): (r: bool) {
    var requested := Requested(passkeys, request, lib);
    requested.Ok? && PersistSucceeds(files, name, Encoded(requested.value, lib), io)
  }

  /** The states the disk goes through during the request. */
  function RequestTrace(passkeys: seq<Passkey>, files: Files, name: string, lib: Library, request: Request, io: Io): (trace: seq<Files>) {
    var requested := Requested(passkeys, request, lib);
    if requested.Err? then [] else PersistTrace(files, name, Encoded(requested.value, lib), io)
  }

  function Answer(passkeys: seq<Passkey>, files: Files, name: string, lib: Library, request: Request, io: Io): (r: Result<()>) {
    var requested := Requested(passkeys, request, lib);
    if requested.Err? then Err(requested.error)
    else if PersistSucceeds(files, name, Encoded(requested.value, lib), io) then Ok(())
    else Err(VerifierUnavailable)
  }

  function Published(passkeys: seq<Passkey>, files: Files, name: string, lib: Library, request: Request, io: Io): (r: seq<Passkey>) {
    if Succeeds(passkeys, files, name, lib, request, io) then Requested(passkeys, request, lib).value else passkeys
  }

  // ---- The store ----------------------------------------------------------------------------

  class FilePasskeyCredentialStore {
    const name: string
    const lib: Library
    const disk: Disk
    var passkeys: seq<Passkey>

    constructor (name: string, lib: Library, disk: Disk, loaded: seq<Passkey>)
      ensures this.name == name && this.lib == lib && this.disk == disk && passkeys == loaded
    {
      this.name, this.lib, this.disk, passkeys := name, lib, disk, loaded;
    }

    /** Opening fails exactly when loading does, and otherwise starts from the loaded list. */
    static method Open(name: string, lib: Library, disk: Disk) returns (r: Result<FilePasskeyCredentialStore>)
      ensures r.Err? ==> Load(disk.files, name, lib) == Err(r.error)
      ensures r.Ok? ==> Load(disk.files, name, lib) == Ok(r.value.passkeys)
      ensures r.Ok? <==> name in disk.files ==>
                && |disk.files[name]| <= 1_048_576
                && lib.decode(disk.files[name]).Some? && lib.decode(disk.files[name]).value.version == 1
      ensures r.Ok? ==> r.value.name == name && r.value.lib == lib && r.value.disk == disk
    {
      var loaded := Load(disk.files, name, lib);
      if loaded.Err? {
        return Err(loaded.error);
      }
      var store := new FilePasskeyCredentialStore(name, lib, disk, loaded.value);
      return Ok(store);
    }

    method WritePrivateFile(path: string, bytes: seq<byte>, io: Io) returns (ok: bool)
      modifies disk
      ensures ok == WriteSucceeds(old(disk.files), path, bytes, io)
      ensures disk.trace == old(disk.trace) + WriteTrace(old(disk.files), path, bytes, io)
      ensures disk.files == LastOr(WriteTrace(old(disk.files), path, bytes, io), old(disk.files))
    {
      ok := disk.CreateNew(path, io.created);
      if ok {
        ok := disk.WriteAll(path, bytes, io.written);
        ok := ok && io.synced;
      }
    }

    method Persist(list: seq<Passkey>, io: Io) returns (ok: bool)
      modifies disk
      ensures ok == PersistSucceeds(old(disk.files), name, Encoded(list, lib), io)
      ensures ok <==>
                && lib.encode(Document(1, list)).Some? && io.suffix.Some? && io.created
                && ("." + name + "." + io.suffix.value + ".tmp") !in old(disk.files)
                && io.written >= |lib.encode(Document(1, list)).value| && io.synced && io.renamed
      ensures disk.trace == old(disk.trace) + PersistTrace(old(disk.files), name, Encoded(list, lib), io)
      ensures disk.files == LastOr(PersistTrace(old(disk.files), name, Encoded(list, lib), io), old(disk.files))
    {
      var bytes := Encoded(list, lib);
      if bytes.None? || io.suffix.None? {
        return false;
      }
      var temp := TempName(name, io.suffix.value);
      ok := WritePrivateFile(temp, bytes.value, io);
      if ok {
        ok := disk.Rename(temp, name, io.renamed);
      }
      if !ok {
        disk.RemoveFile(temp, io.removed);
      }
    }

    method Position(id: seq<byte>) returns (i: nat)
      ensures i == Find(passkeys, id)
    {
      i := 0;
      while i < |passkeys| && passkeys[i].id != id
        invariant i <= |passkeys| && forall j :: 0 <= j < i ==> passkeys[j].id != id
      {
        i := i + 1;
      }
    }

    /** The store file is the encoded version 1 document of the list in memory. */
    ghost predicate Recorded()
      reads this, disk
    {
      name in disk.files && lib.encode(Document(1, passkeys)) == Some(disk.files[name])
    }

    method RegisterPasskey(passkey: Passkey, io: Io) returns (r: Result<()>)
      modifies this, disk
      ensures r == Err(CredentialConflict) <==> Known(old(passkeys), passkey.id)
      ensures r.Ok? ==> passkeys == old(passkeys) + [passkey] && Recorded()
      ensures r.Err? ==> r.error != VerificationFailed
      ensures r.Err? ==> passkeys == old(passkeys) && Entry(disk.files, name) == Entry(old(disk.files), name)
      ensures r == Answer(old(passkeys), old(disk.files), name, lib, Register(passkey), io)
      ensures passkeys == Published(old(passkeys), old(disk.files), name, lib, Register(passkey), io)
      ensures disk.trace == old(disk.trace) + RequestTrace(old(passkeys), old(disk.files), name, lib, Register(passkey), io)
      ensures disk.files == LastOr(RequestTrace(old(passkeys), old(disk.files), name, lib, Register(passkey), io), old(disk.files))
    {
      var i := Position(passkey.id);
      RegisterRequests(passkeys, passkey, lib);
      if i < |passkeys| {
        return Err(CredentialConflict);
      }
      var updated := passkeys + [passkey];
      PersistShows(disk.files, name, Encoded(updated, lib), io);
      var ok := Persist(updated, io);
      if !ok {
        return Err(VerifierUnavailable);
      }
      passkeys := updated;
      return Ok(());
    }

    method ApplyAuthenticationResult(result: Authentication, io: Io) returns (r: Result<()>)
      modifies this, disk
      ensures r.Ok? ==> exists i :: IsFirst(old(passkeys), result.id, i)
      ensures r.Ok? ==> forall i :: IsFirst(old(passkeys), result.id, i) ==>
                && lib.update(old(passkeys)[i], result).Some?
                && passkeys == old(passkeys)[i := lib.update(old(passkeys)[i], result).value] && Recorded()
      ensures r == Err(VerificationFailed) <==>
                forall i :: IsFirst(old(passkeys), result.id, i) ==> lib.update(old(passkeys)[i], result).None?
      ensures r.Err? ==> r.error != CredentialConflict
      ensures r.Err? ==> passkeys == old(passkeys) && Entry(disk.files, name) == Entry(old(disk.files), name)
      ensures r == Answer(old(passkeys), old(disk.files), name, lib, Authenticate(result), io)
      ensures passkeys == Published(old(passkeys), old(disk.files), name, lib, Authenticate(result), io)
      ensures disk.trace == old(disk.trace) + RequestTrace(old(passkeys), old(disk.files), name, lib, Authenticate(result), io)
      ensures disk.files == LastOr(RequestTrace(old(passkeys), old(disk.files), name, lib, Authenticate(result), io), old(disk.files))
    {
      var i := Position(result.id);
      AuthenticateRequests(passkeys, result, lib);
      if i == |passkeys| {
        return Err(VerificationFailed);
      }
      assert IsFirst(passkeys, result.id, i);
      var passkey := lib.update(passkeys[i], result);
      if passkey.None? {
        return Err(VerificationFailed);
      }
      var updated := passkeys[i := passkey.value];
      PersistShows(disk.files, name, Encoded(updated, lib), io);
      var ok := Persist(updated, io);
      if !ok {
        return Err(VerifierUnavailable);
      }
      passkeys := updated;
      return Ok(());
    }
  }

  // ---- Runs with crashes --------------------------------------------------------------------

  /** The process is up with its list in memory, or down with only the disk left. */
  datatype World = Up(passkeys: seq<Passkey>, files: Files) | Down(files: Files)

  /** A request that returns; a crash before any of the request's states (`reached` counts the states passed);
      a crash between requests is one with `reached == 0`; a start. */
  datatype Event = Serve(request: Request, io: Io) | Crash(request: Request, io: Io, reached: nat) | Start

  predicate Enabled(w: World, e: Event, name: string, lib: Library) {
    match e
    case Serve(_, _) => w.Up?
    case Crash(request, io, reached) => w.Up? && reached <= |RequestTrace(w.passkeys, w.files, name, lib, request, io)|
    case Start => w.Down?
  }

  function After(w: World, e: Event, name: string, lib: Library): (w': World)
    requires Enabled(w, e, name, lib)
  {
    match e
    case Serve(request, io) =>
      Up(Published(w.passkeys, w.files, name, lib, request, io),
         LastOr(RequestTrace(w.passkeys, w.files, name, lib, request, io), w.files))
    case Crash(request, io, reached) =>
      Down(LastOr(RequestTrace(w.passkeys, w.files, name, lib, request, io)[..reached], w.files))
    case Start =>
      var loaded := Load(w.files, name, lib);
      if loaded.Ok? then Up(loaded.value, w.files) else w
  }

  ghost predicate IsRun(ws: seq<World>, es: seq<Event>, name: string, lib: Library) {
    && |ws| == |es| + 1
    && forall i :: 0 <= i < |es| ==> Enabled(ws[i], es[i], name, lib) && ws[i + 1] == After(ws[i], es[i], name, lib)
  }

  ghost predicate DistinctIds(passkeys: seq<Passkey>) {
    forall i, j :: 0 <= i < j < |passkeys| ==> passkeys[i].id != passkeys[j].id
  }

  /** `list` is on disk, and in memory if the process is up. */
  ghost predicate Holds(w: World, name: string, lib: Library, list: seq<Passkey>) {
    Records(w.files, name, lib, list) && DistinctIds(list) && (w.Up? ==> w.passkeys == list)
  }

  /** Every credential of `before` is in `after`, at the same place and with a counter no lower. */
  ghost predicate Extends(before: seq<Passkey>, after: seq<Passkey>) {
    |before| <= |after| && forall i :: 0 <= i < |before| ==> after[i].id == before[i].id && after[i].counter >= before[i].counter
  }

  lemma RequestedExtends(list: seq<Passkey>, request: Request, lib: Library)
    requires lib.Sound() && DistinctIds(list) && Requested(list, request, lib).Ok?
    ensures DistinctIds(Requested(list, request, lib).value) && Extends(list, Requested(list, request, lib).value)
  {
  }

  /** A disk state within a request records the old list or the requested one; the requested one only if the
      request succeeds. */
  lemma StateRecords(list: seq<Passkey>, files: Files, name: string, lib: Library, request: Request, io: Io, k: nat)
    requires lib.Sound() && Records(files, name, lib, list)
    requires k < |RequestTrace(list, files, name, lib, request, io)|
    ensures var trace := RequestTrace(list, files, name, lib, request, io);
            Records(trace[k], name, lib,
              if Succeeds(list, files, name, lib, request, io) && k == |trace| - 1 then Requested(list, request, lib).value else list)
  {
    var requested := Requested(list, request, lib);
    PersistIsAtomic(files, name, Encoded(requested.value, lib), io, k);
    var trace := RequestTrace(list, files, name, lib, request, io);
    assert Entry(trace[k], name) == Entry(files, name) || Entry(trace[k], name) == Encoded(requested.value, lib);
  }

  /** The list after one event: the requested one if the request succeeds and its last state was reached. */
  function Outcome(list: seq<Passkey>, files: Files, e: Event, name: string, lib: Library): (r: seq<Passkey>) {
    match e
    case Serve(request, io) => Published(list, files, name, lib, request, io)
    case Crash(request, io, reached) =>
      if reached == |RequestTrace(list, files, name, lib, request, io)| then Published(list, files, name, lib, request, io) else list
    case Start => list
  }

  lemma EventHolds(w: World, e: Event, name: string, lib: Library, list: seq<Passkey>)
    requires lib.Sound() && Holds(w, name, lib, list) && Enabled(w, e, name, lib)
    ensures Holds(After(w, e, name, lib), name, lib, Outcome(list, w.files, e, name, lib))
    ensures Extends(list, Outcome(list, w.files, e, name, lib))
  {
    match e
    case Serve(request, io) =>
      ServeHolds(w, request, io, |RequestTrace(list, w.files, name, lib, request, io)|, name, lib, list);
    case Crash(request, io, reached) =>
      ServeHolds(w, request, io, reached, name, lib, list);
    case Start =>
  }

  lemma ServeHolds(w: World, request: Request, io: Io, reached: nat, name: string, lib: Library, list: seq<Passkey>)
    requires lib.Sound() && Holds(w, name, lib, list)
    requires reached <= |RequestTrace(list, w.files, name, lib, request, io)|
    ensures var trace := RequestTrace(list, w.files, name, lib, request, io);
            var list' := if reached == |trace| then Published(list, w.files, name, lib, request, io) else list;
            && Records(LastOr(trace[..reached], w.files), name, lib, list')
            && DistinctIds(list') && Extends(list, list')
  {
    if Requested(list, request, lib).Ok? {
      RequestedExtends(list, request, lib);
    }
    if reached > 0 {
      StateRecords(list, w.files, name, lib, request, io, reached - 1);
    } else if Succeeds(list, w.files, name, lib, request, io) {
      PersistInstalls(w.files, name, Encoded(Requested(list, request, lib).value, lib), io);
    }
  }

  /** The list the store stands for after `i` events, starting from `list`. */
  ghost function ListAt(list: seq<Passkey>, ws: seq<World>, es: seq<Event>, name: string, lib: Library, i: nat): (r: seq<Passkey>)
    requires i <= |es| < |ws|
  {
    if i == 0 then list
    else Outcome(ListAt(list, ws, es, name, lib, i - 1), ws[i - 1].files, es[i - 1], name, lib)
  }

  lemma {:induction false} RunHolds(list: seq<Passkey>, ws: seq<World>, es: seq<Event>, name: string, lib: Library, i: nat)
    requires lib.Sound() && IsRun(ws, es, name, lib) && Holds(ws[0], name, lib, list) && i <= |es|
    ensures Holds(ws[i], name, lib, ListAt(list, ws, es, name, lib, i))
  {
    if i > 0 {
      RunHolds(list, ws, es, name, lib, i - 1);
      EventHolds(ws[i - 1], es[i - 1], name, lib, ListAt(list, ws, es, name, lib, i - 1));
    }
  }

  lemma {:induction false} RunExtends(list: seq<Passkey>, ws: seq<World>, es: seq<Event>, name: string, lib: Library, i: nat, j: nat)
    requires lib.Sound() && IsRun(ws, es, name, lib) && Holds(ws[0], name, lib, list) && i <= j <= |es|
    ensures Extends(ListAt(list, ws, es, name, lib, i), ListAt(list, ws, es, name, lib, j))
  {
    if i < j {
      RunExtends(list, ws, es, name, lib, i, j - 1);
      RunHolds(list, ws, es, name, lib, j - 1);
      EventHolds(ws[j - 1], es[j - 1], name, lib, ListAt(list, ws, es, name, lib, j - 1));
    }
  }

  // ---- Main results -------------------------------------------------------------------------

  /** In every reachable world the disk records one list of distinct credentials, and a running process has
      exactly that list in memory. */
  lemma MemoryIsDisk(list: seq<Passkey>, ws: seq<World>, es: seq<Event>, name: string, lib: Library, i: nat)
    requires lib.Sound() && IsRun(ws, es, name, lib) && Holds(ws[0], name, lib, list) && i <= |es| && ws[i].Up?
    ensures Records(ws[i].files, name, lib, ws[i].passkeys) && DistinctIds(ws[i].passkeys)
  {
    RunHolds(list, ws, es, name, lib, i);
  }

  /** Durability: once a request is answered `Ok`, every later world, through any number of crashes, restarts
      and failed requests, still records its credentials, and none with a lower counter. */
  lemma AcknowledgedIsNeverLost(list: seq<Passkey>, ws: seq<World>, es: seq<Event>, name: string, lib: Library, i: nat, j: nat)
      returns (later: seq<Passkey>)
    requires lib.Sound() && IsRun(ws, es, name, lib) && Holds(ws[0], name, lib, list) && i < j <= |es|
    requires es[i].Serve? && Answer(ws[i].passkeys, ws[i].files, name, lib, es[i].request, es[i].io).Ok?
    ensures Requested(ws[i].passkeys, es[i].request, lib).Ok?
    ensures Records(ws[j].files, name, lib, later) && Extends(Requested(ws[i].passkeys, es[i].request, lib).value, later)
    ensures es[i].request.Register? ==>
              exists k :: 0 <= k < |later| && later[k].id == es[i].request.passkey.id && later[k].counter >= es[i].request.passkey.counter
    ensures es[i].request.Authenticate? ==>
              exists k :: IsFirst(ws[i].passkeys, es[i].request.result.id, k)
    ensures es[i].request.Authenticate? ==>
              forall k :: IsFirst(ws[i].passkeys, es[i].request.result.id, k) ==>
                var updated := lib.update(ws[i].passkeys[k], es[i].request.result);
                k < |later| && later[k].id == es[i].request.result.id && updated.Some? && later[k].counter >= updated.value.counter
  {
    match es[i].request {
      case Register(passkey) => RegisterRequests(ws[i].passkeys, passkey, lib);
      case Authenticate(result) => AuthenticateRequests(ws[i].passkeys, result, lib);
    }
    RunHolds(list, ws, es, name, lib, i);
    RunHolds(list, ws, es, name, lib, j);
    RunExtends(list, ws, es, name, lib, i + 1, j);
    later := ListAt(list, ws, es, name, lib, j);
    if es[i].request.Register? {
      assert later[|ws[i].passkeys|].id == es[i].request.passkey.id;
    }
  }

  /** A request answered with an error changes neither the memory nor the store file. */
  lemma RefusedChangesNothing(list: seq<Passkey>, w: World, request: Request, io: Io, name: string, lib: Library)
    requires lib.Sound() && Holds(w, name, lib, list) && w.Up?
    requires Answer(w.passkeys, w.files, name, lib, request, io).Err?
    ensures var w' := After(w, Serve(request, io), name, lib);
            w'.passkeys == w.passkeys && Entry(w'.files, name) == Entry(w.files, name)
  {
    var trace := RequestTrace(w.passkeys, w.files, name, lib, request, io);
    if |trace| > 0 {
      PersistIsAtomic(w.files, name, Encoded(Requested(w.passkeys, request, lib).value, lib), io, |trace| - 1);
    }
  }

  /** A crash anywhere inside a request, then a restart: the process comes back with the list from before the
      request or the requested list, never anything else, if and only if that document fits the size limit. */
  lemma CrashRecovers(list: seq<Passkey>, w: World, request: Request, io: Io, reached: nat, name: string, lib: Library)
    requires lib.Sound() && Holds(w, name, lib, list) && w.Up?
    requires reached <= |RequestTrace(list, w.files, name, lib, request, io)|
    ensures var crashed := After(w, Crash(request, io, reached), name, lib);
            var restarted := After(crashed, Start, name, lib);
            && (restarted.Up? <==> Fits(crashed.files, name))
            && (restarted.Up? ==> restarted.passkeys == list || Ok(restarted.passkeys) == Requested(list, request, lib))
            && (restarted.Up? && reached < |RequestTrace(list, w.files, name, lib, request, io)| ==> restarted.passkeys == list)
  {
    ServeHolds(w, request, io, reached, name, lib, list);
    var crashed := After(w, Crash(request, io, reached), name, lib);
    LoadIff(crashed.files, name, lib, Outcome(list, w.files, Crash(request, io, reached), name, lib));
  }

  /** Persisting does not check the limit that loading enforces: after an accepted request the store opens
      again if and only if the encoding of the new list is at most `MAX_STORE_BYTES` long. */
  lemma ReopensIff(list: seq<Passkey>, w: World, request: Request, io: Io, name: string, lib: Library)
    requires lib.Sound() && Holds(w, name, lib, list) && w.Up?
    requires Answer(w.passkeys, w.files, name, lib, request, io).Ok?
    ensures Requested(list, request, lib).Ok? && Encoded(Requested(list, request, lib).value, lib).Some?
    ensures var w' := After(w, Serve(request, io), name, lib);
            var bytes := Encoded(Requested(list, request, lib).value, lib).value;
            Load(w'.files, name, lib) == if |bytes| <= MAX_STORE_BYTES then Ok(w'.passkeys) else Err(VerifierUnavailable)
  {
    PersistInstalls(w.files, name, Encoded(Requested(list, request, lib).value, lib), io);
  }

  /** The store after `n` enrollments, each with an id of its own. */
  function Enrolled(n: nat): (passkeys: seq<Passkey>)
    ensures |passkeys| == n
    ensures forall i :: 0 <= i < n ==> |passkeys[i].id| == i
  {
    if n == 0 then [] else Enrolled(n - 1) + [Passkey(seq(n - 1, _ => 0), 0, [])]
  }

  function EnrolledFiles(n: nat, name: string, lib: Library): (files: Files) {
    if n == 0 || Encoded(Enrolled(n), lib).None? then map[] else map[name := Encoded(Enrolled(n), lib).value]
  }

  ghost predicate Accepted(w: World, e: Event, name: string, lib: Library) {
    && w.Up? && e.Serve? && e.request.Register?
    && Answer(w.passkeys, w.files, name, lib, e.request, e.io) == Ok(())
  }

  /** One more enrollment on a disk that does what it is told. */
  lemma EnrollOne(n: nat, name: string, lib: Library) returns (e: Event)
    requires lib.Sound() && lib.Grows()
    ensures var w := Up(Enrolled(n), EnrolledFiles(n, name, lib));
            && Accepted(w, e, name, lib) && Enabled(w, e, name, lib)
            && After(w, e, name, lib) == Up(Enrolled(n + 1), EnrolledFiles(n + 1, name, lib))
  {
    var passkey := Passkey(seq(n, _ => 0), 0, []);
    var bytes := Encoded(Enrolled(n + 1), lib);
    var files := EnrolledFiles(n, name, lib);
    var io := Io(Some(""), true, |bytes.value|, true, true, true);
    e := Serve(Register(passkey), io);
    assert Find(Enrolled(n), passkey.id) == n;
    assert Requested(Enrolled(n), Register(passkey), lib) == Ok(Enrolled(n + 1));
    PersistInstalls(files, name, bytes, io);
    assert files[name := bytes.value] == EnrolledFiles(n + 1, name, lib);
  }

  ghost predicate IsAcceptedRun(ws: seq<World>, es: seq<Event>, name: string, lib: Library) {
    IsRun(ws, es, name, lib) && forall i :: 0 <= i < |es| ==> Accepted(ws[i], es[i], name, lib)
  }

  lemma ExtendAccepted(ws: seq<World>, es: seq<Event>, e: Event, w: World, name: string, lib: Library)
    requires IsAcceptedRun(ws, es, name, lib) && Accepted(ws[|es|], e, name, lib)
    requires Enabled(ws[|es|], e, name, lib) && w == After(ws[|es|], e, name, lib)
    ensures IsAcceptedRun(ws + [w], es + [e], name, lib)
  {
    var ws', es' := ws + [w], es + [e];
    forall i | 0 <= i < |es'|
      ensures Enabled(ws'[i], es'[i], name, lib) && ws'[i + 1] == After(ws'[i], es'[i], name, lib)
      ensures Accepted(ws'[i], es'[i], name, lib)
    {
      if i < |es| {
        assert ws'[i] == ws[i] && ws'[i + 1] == ws[i + 1] && es'[i] == es[i];
      }
    }
  }

  lemma {:induction false} EnrollMany(n: nat, name: string, lib: Library) returns (ws: seq<World>, es: seq<Event>)
    requires lib.Sound() && lib.Grows()
    ensures IsAcceptedRun(ws, es, name, lib) && |es| == n && ws[0] == Up([], map[])
    ensures ws[n] == Up(Enrolled(n), EnrolledFiles(n, name, lib))
  {
    if n == 0 {
      ws, es := [Up([], map[])], [];
    } else {
      ws, es := EnrollMany(n - 1, name, lib);
      var e := EnrollOne(n - 1, name, lib);
      var w := Up(Enrolled(n), EnrolledFiles(n, name, lib));
      ExtendAccepted(ws, es, e, w, name, lib);
      ws, es := ws + [w], es + [e];
    }
  }

  /** Whatever the codec, as long as it can encode every list and spends at least one byte on each credential:
      from the empty store, some run in which every registration is accepted leaves a file that no start accepts. */
  lemma AcceptedRegistrationsLockOut(name: string, lib: Library) returns (ws: seq<World>, es: seq<Event>)
    requires lib.Sound() && lib.Grows()
    ensures IsAcceptedRun(ws, es, name, lib) && ws[0] == Up([], map[])
    ensures Load(ws[|es|].files, name, lib) == Err(VerifierUnavailable)
  {
    ws, es := EnrollMany(MAX_STORE_BYTES + 1, name, lib);
  }
}
