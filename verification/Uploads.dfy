/**
  Resumable uploads (src/files.rs): chunks are written to a private temporary file and
  published under the destination name by one rename or hard link.  The disk is a map
  from paths to nodes; SHA-256 is an uninterpreted function of the contents.
 */
module Uploads {
  import opened Basics

  const MAX_FILE_CHUNK_SIZE: nat := 1048576

  /** A destination: a resolved directory and a file name. */
  datatype Target = Target(dir: string, name: string)

  /** Temporary names contain the transfer ID; destinations never have that form. */
  datatype Path = Named(target: Target) | Temporary(dir: string, id: string)

  /** `Special`: a FIFO, a socket or a device. */
  datatype Node = Regular(data: Bytes) | Directory | Special

  type Disk = map<Path, Node>

  datatype UploadState = Active | Completed | Aborted

  datatype Upload = Upload(id: string, target: Target, size: nat, expected: Bytes, overwrite: bool,
                           offset: nat, state: UploadState)
  {
    function Temp(): Path {
      Temporary(target.dir, id)
    }

    function Report(): Status {
      Status(id, size, offset, state)
    }
  }

  datatype Status = Status(id: string, size: nat, offset: nat, state: UploadState)

  datatype Code = Invalid | Conflict | NotFound | ChecksumMismatch | Quota | Filesystem

  datatype Result<+T> = Ok(value: T) | Err(code: Code)

  datatype Begin = Begin(id: string, target: Option<Target>, size: nat, sha256: Bytes, overwrite: bool)

  datatype Chunk = Chunk(id: string, offset: nat, data: Bytes, sha256: Bytes, encoding: nat, uncompressedSize: nat)

  type Digest = Bytes -> Bytes

  /**
    What can befall a commit: a system call fails before publication, or when the linked temporary is
    removed; or the destination is already a hard link to the temporary, so that renaming one over
    the other succeeds without effect (`SameFile`, possible only if both have the same contents).
   */
  datatype Fault = NoFault | BeforePublish | AfterLink | SameFile

  /** Other processes create, replace or remove files that are not upload temporaries. */
  type Race = map<Target, Option<Node>>

  function Disturb(disk: Disk, race: Race): Disk {
    map p | p in disk.Keys + (set t | t in race && race[t].Some? :: Named(t))
            && (p.Named? && p.target in race ==> race[p.target].Some?)
      :: if p.Named? && p.target in race then race[p.target].value else disk[p]
  }

  /** Opening a temporary creates it if it is missing; anything but a regular file is refused. */
  function Open(disk: Disk, p: Path): Option<Disk> {
    if p !in disk then Some(disk[p := Regular([])])
    else if disk[p].Regular? then Some(disk)
    else None
  }

  /** Writing past the end leaves a gap of zeros. */
  function WriteAt(file: Bytes, offset: nat, data: Bytes): Bytes {
    (if offset <= |file| then file[..offset] else file + seq(offset - |file|, _ => 0 as byte))
    + data
    + (if offset + |data| < |file| then file[offset + |data|..] else [])
  }

  datatype Service = Service(uploads: map<string, Upload>, disk: Disk)
  {
    function Pruned(): map<string, Upload> {
      map id | id in uploads && uploads[id].state == Active :: uploads[id]
    }

    /** The destination already holds what the request announces. */
    predicate AlreadyThere(r: Begin, t: Target, digest: Digest) {
      && Named(t) in disk && disk[Named(t)].Regular?
      && |disk[Named(t)].data| == r.size && |r.sha256| == 32 && digest(disk[Named(t)].data) == r.sha256
    }

    function BeginUpload(r: Begin, digest: Digest, quota: bool): (Service, Result<Status>) {
      if !CanonicalUuid(r.id) || !(|r.sha256| == 32 || r.sha256 == []) || r.target.None? then (this, Err(Invalid))
      else
        var t := r.target.value;
        if r.id in uploads then
          var u := uploads[r.id];
          if u.target != t || u.size != r.size || u.expected != r.sha256 then (this, Err(Conflict))
          else (this, Ok(u.Report()))
        else
          var kept := this.(uploads := Pruned());
          if AlreadyThere(r, t, digest) then
            var u := Upload(r.id, t, r.size, r.sha256, r.overwrite, r.size, Completed);
            (kept.(uploads := kept.uploads[r.id := u]), Ok(u.Report()))
          else if Named(t) in disk && !r.overwrite then (kept, Err(Conflict))
          else if !quota then (kept, Err(Quota))
          else
            var temp := Temporary(t.dir, r.id);
            var ready := Open(disk, temp);
            if ready.None? then (kept, Err(Filesystem))
            else
              var length := |ready.value[temp].data|;
              if length > r.size then (kept.(disk := ready.value), Err(Conflict))
              else
                var u := Upload(r.id, t, r.size, r.sha256, r.overwrite, length, Active);
                (Service(kept.uploads[r.id := u], ready.value), Ok(u.Report()))
    }

    function QueryUpload(id: string): Result<Status> {
      if !CanonicalUuid(id) then Err(Invalid)
      else if id in uploads then Ok(uploads[id].Report()) else Err(NotFound)
    }

    /** `written`: how many bytes reach the file before an I/O error, if fewer than the chunk has. */
    function WriteChunk(r: Chunk, digest: Digest, written: nat): (Service, Result<Status>) {
      if r.encoding != 0 || r.uncompressedSize != 0 || !CanonicalUuid(r.id) || |r.sha256| != 32
         || r.data == [] || |r.data| > MAX_FILE_CHUNK_SIZE then (this, Err(Invalid))
      else if digest(r.data) != r.sha256 then (this, Err(ChecksumMismatch))
      else if r.id !in uploads then (this, Err(NotFound))
      else
        var u := uploads[r.id];
        if u.state == Completed then (this, Ok(u.Report()))
        else if u.state == Aborted then (this, Err(Conflict))
        else if r.offset + |r.data| > u.size then (this, Err(Invalid))
        else
          var ready := Open(disk, u.Temp());
          if ready.None? then (this, Err(Filesystem))
          else OpenedWrite(r, u, this.(disk := ready.value), written)
    }

    function CommitUpload(id: string, digest: Digest, race: Race, fault: Fault): (Service, Result<Status>) {
      if !CanonicalUuid(id) then (this, Err(Invalid))
      else if id !in uploads then (this, Err(NotFound))
      else
        var u := uploads[id];
        if u.state == Completed then (this, Ok(u.Report()))
        else if u.state == Aborted || u.offset != u.size then (this, Err(Conflict))
        else if |u.expected| == 32 && !(u.Temp() in disk && disk[u.Temp()].Regular?) then (this, Err(Filesystem))
        else if |u.expected| == 32 && digest(disk[u.Temp()].data) != u.expected then (this, Err(ChecksumMismatch))
        else if Named(u.target) in disk && !u.overwrite then (this, Err(Conflict))
        else
          var ready := Open(disk, u.Temp());
          if ready.None? then (this, Err(Filesystem))
          else Publish(this.(disk := Disturb(ready.value, race)), id, u, fault)
    }

    function AbortUpload(id: string): (Service, Result<Status>) {
      if !CanonicalUuid(id) then (this, Err(Invalid))
      else if id !in uploads then (this, Err(NotFound))
      else
        var u := uploads[id];
        if u.state != Active then (this, Ok(u.Report()))
        else if u.Temp() in disk && disk[u.Temp()].Directory? then (this, Err(Filesystem))
        else
          var u' := u.(state := Aborted);
          (Service(uploads[id := u'], disk - {u.Temp()}), Ok(u'.Report()))
    }
  }

  /** The temporary is open: compare a replay, refuse a gap or an overlap, or append. */
  function OpenedWrite(r: Chunk, u: Upload, s: Service, written: nat): (Service, Result<Status>)
    requires u.Temp() in s.disk && s.disk[u.Temp()].Regular?
  {
    var file := s.disk[u.Temp()].data;
    var end := r.offset + |r.data|;
    if r.offset < u.offset then
      if end > u.offset then (s, Err(Conflict))
      else if end > |file| then (s, Err(Filesystem))
      else if file[r.offset..end] != r.data then (s, Err(Conflict))
      else (s, Ok(u.Report()))
    else if r.offset != u.offset then (s, Err(Conflict))
    else if written < |r.data| then
      (s.(disk := s.disk[u.Temp() := Regular(WriteAt(file, r.offset, r.data[..written]))]), Err(Filesystem))
    else
      var u' := u.(offset := end);
      (Service(s.uploads[r.id := u'], s.disk[u.Temp() := Regular(WriteAt(file, r.offset, r.data))]), Ok(u'.Report()))
  }

  /** The last step of a commit: rename over the destination, or link and unlink if it must not exist. */
  function Publish(s: Service, id: string, u: Upload, fault: Fault): (Service, Result<Status>)
    requires u.Temp() in s.disk
  {
    var t := Named(u.target);
    if fault == BeforePublish then (s, Err(Filesystem))
    else if !u.overwrite && t in s.disk then (s, Err(Filesystem))
    else if u.overwrite && t in s.disk && s.disk[t].Directory? then (s, Err(Filesystem))
    else if !u.overwrite && fault == AfterLink then
      (s.(disk := s.disk[t := s.disk[u.Temp()]]), Err(Filesystem))
    else
      var u' := u.(state := Completed);
      if u.overwrite && fault == SameFile && t in s.disk && s.disk[t] == s.disk[u.Temp()] then
        (s.(uploads := s.uploads[id := u']), Ok(u'.Report()))
      else
        (Service(s.uploads[id := u'], s.disk[t := s.disk[u.Temp()]] - {u.Temp()}), Ok(u'.Report()))
  }

  class FileService {
    var uploads: map<string, Upload>
    var disk: Disk

    function Value(): Service
      reads this
    {
      Service(uploads, disk)
    }

    /** A service starts without registered uploads, whatever is on the disk. */
    constructor (found: Disk)
      ensures Value() == Service(map[], found)
    {
      uploads, disk := map[], found;
    }

    method BeginUpload(r: Begin, digest: Digest, quota: bool) returns (result: Result<Status>)
      modifies this
      ensures (Value(), result) == old(Value()).BeginUpload(r, digest, quota)
    {
      if !CanonicalUuid(r.id) { return Err(Invalid); }
      if |r.sha256| != 32 && r.sha256 != [] { return Err(Invalid); }
      if r.target.None? { return Err(Invalid); }
      var t := r.target.value;
      if r.id in uploads {
        var existing := uploads[r.id];
        if existing.target != t || existing.size != r.size || existing.expected != r.sha256 { return Err(Conflict); }
        return Ok(existing.Report());
      }
      uploads := map id | id in uploads && uploads[id].state == Active :: uploads[id];
      if Named(t) in disk {
        if disk[Named(t)].Regular? && |disk[Named(t)].data| == r.size && |r.sha256| == 32
           && digest(disk[Named(t)].data) == r.sha256 {
          var completed := Upload(r.id, t, r.size, r.sha256, r.overwrite, r.size, Completed);
          uploads := uploads[r.id := completed];
          return Ok(completed.Report());
        }
        if !r.overwrite { return Err(Conflict); }
      }
      if !quota { return Err(Quota); }
      var temp := Temporary(t.dir, r.id);
      var ready := Open(disk, temp);
      if ready.None? { return Err(Filesystem); }
      disk := ready.value;
      var length := |disk[temp].data|;
      if length > r.size { return Err(Conflict); }
      var upload := Upload(r.id, t, r.size, r.sha256, r.overwrite, length, Active);
      uploads := uploads[r.id := upload];
      result := Ok(upload.Report());
    }

    method QueryUpload(id: string) returns (result: Result<Status>)
      ensures result == Value().QueryUpload(id)
    {
      if !CanonicalUuid(id) { return Err(Invalid); }
      if id !in uploads { return Err(NotFound); }
      result := Ok(uploads[id].Report());
    }

    method WriteChunk(r: Chunk, digest: Digest, written: nat) returns (result: Result<Status>)
      modifies this
      ensures (Value(), result) == old(Value()).WriteChunk(r, digest, written)
    {
      if r.encoding != 0 || r.uncompressedSize != 0 { return Err(Invalid); }
      if !CanonicalUuid(r.id) || |r.sha256| != 32 { return Err(Invalid); }
      if r.data == [] || |r.data| > MAX_FILE_CHUNK_SIZE { return Err(Invalid); }
      if digest(r.data) != r.sha256 { return Err(ChecksumMismatch); }
      if r.id !in uploads { return Err(NotFound); }
      var u := uploads[r.id];
      if u.state != Active {
        if u.state == Completed { return Ok(u.Report()); }
        return Err(Conflict);
      }
      var end := r.offset + |r.data|;
      if end > u.size { return Err(Invalid); }
      var ready := Open(disk, u.Temp());
      if ready.None? { return Err(Filesystem); }
      disk := ready.value;
      var file := disk[u.Temp()].data;
      if r.offset < u.offset {
        if end > u.offset { return Err(Conflict); }
        if end > |file| { return Err(Filesystem); }
        if file[r.offset..end] != r.data { return Err(Conflict); }
        return Ok(u.Report());
      }
      if r.offset != u.offset { return Err(Conflict); }
      if written < |r.data| {
        disk := disk[u.Temp() := Regular(WriteAt(file, r.offset, r.data[..written]))];
        return Err(Filesystem);
      }
      disk := disk[u.Temp() := Regular(WriteAt(file, r.offset, r.data))];
      u := u.(offset := end);
      uploads := uploads[r.id := u];
      result := Ok(u.Report());
    }

    method CommitUpload(id: string, digest: Digest, race: Race, fault: Fault) returns (result: Result<Status>)
      modifies this
      ensures (Value(), result) == old(Value()).CommitUpload(id, digest, race, fault)
    {
      hide CanonicalUuid, Disturb;
      if !CanonicalUuid(id) { return Err(Invalid); }
      if id !in uploads { return Err(NotFound); }
      var u := uploads[id];
      if u.state == Completed { return Ok(u.Report()); }
      if u.state != Active { return Err(Conflict); }
      if u.offset != u.size { return Err(Conflict); }
      var temp, t := u.Temp(), Named(u.target);
      if |u.expected| == 32 {
        if temp !in disk || !disk[temp].Regular? { return Err(Filesystem); }
        if digest(disk[temp].data) != u.expected { return Err(ChecksumMismatch); }
      }
      if t in disk && !u.overwrite { return Err(Conflict); }
      var ready := Open(disk, temp);
      if ready.None? { return Err(Filesystem); }
      DisturbKeepsTemp(ready.value, race, temp);
      disk := Disturb(ready.value, race);
      if fault == BeforePublish { return Err(Filesystem); }
      if u.overwrite {
        if t in disk && disk[t].Directory? { return Err(Filesystem); }
        if !(fault == SameFile && t in disk && disk[t] == disk[temp]) {
          disk := disk[t := disk[temp]] - {temp};
        }
      } else {
        if t in disk { return Err(Filesystem); }
        disk := disk[t := disk[temp]];
        if fault == AfterLink { return Err(Filesystem); }
        disk := disk - {temp};
      }
      u := u.(state := Completed);
      uploads := uploads[id := u];
      result := Ok(u.Report());
    }

    method AbortUpload(id: string) returns (result: Result<Status>)
      modifies this
      ensures (Value(), result) == old(Value()).AbortUpload(id)
    {
      if !CanonicalUuid(id) { return Err(Invalid); }
      if id !in uploads { return Err(NotFound); }
      var u := uploads[id];
      if u.state == Active {
        if u.Temp() in disk && disk[u.Temp()].Directory? { return Err(Filesystem); }
        disk := disk - {u.Temp()};
        u := u.(state := Aborted);
        uploads := uploads[id := u];
      }
      result := Ok(u.Report());
    }
  }

  // ---------------------------------------------------------------- runs

  /** What each transfer is meant to carry; its chunks are slices of this and never of anything else. */
  type Sources = string -> Bytes

  datatype Event =
    | Begins(begin: Begin, quota: bool)
    | Writes(chunk: Chunk, written: nat)
    | Commits(id: string, race: Race, fault: Fault)
    | Aborts(id: string)
    | Restarts
    | Others(race: Race)

  predicate Slice(source: Bytes, offset: nat, data: Bytes) {
    offset + |data| <= |source| && data == source[offset..offset + |data|]
  }

  predicate Honest(src: Sources, digest: Digest, e: Event) {
    match e
    case Begins(r, _) => r.size == |src(r.id)| && (r.sha256 == [] || r.sha256 == digest(src(r.id)))
    case Writes(r, _) => Slice(src(r.id), r.offset, r.data)
    case _ => true
  }

  function Next(s: Service, digest: Digest, e: Event): (Service, Result<Status>) {
    match e
    case Begins(r, quota) => s.BeginUpload(r, digest, quota)
    case Writes(r, written) => s.WriteChunk(r, digest, written)
    case Commits(id, race, fault) => s.CommitUpload(id, digest, race, fault)
    case Aborts(id) => s.AbortUpload(id)
    case Restarts => (Service(map[], s.disk), Err(NotFound))
    case Others(race) => (s.(disk := Disturb(s.disk, race)), Err(NotFound))
  }

  function After(s: Service, digest: Digest, es: seq<Event>): Service {
    if es == [] then s else Next(After(s, digest, es[..|es| - 1]), digest, es[|es| - 1]).0
  }

  predicate AllHonest(src: Sources, digest: Digest, es: seq<Event>) {
    forall i :: 0 <= i < |es| ==> Honest(src, digest, es[i])
  }

  /** A temporary file holds a prefix of its transfer's source. */
  predicate TempsOk(disk: Disk, src: Sources) {
    forall p :: p in disk && p.Temporary? ==> disk[p].Regular? && disk[p].data <= src(p.id)
  }

  predicate UploadOk(u: Upload, disk: Disk, src: Sources, digest: Digest) {
    && u.size == |src(u.id)| && (u.expected == [] || u.expected == digest(src(u.id)))
    && (u.state == Active ==> u.Temp() in disk && disk[u.Temp()].Regular? && u.offset <= |disk[u.Temp()].data|)
  }

  predicate UploadsOk(uploads: map<string, Upload>, disk: Disk, src: Sources, digest: Digest) {
    forall id :: id in uploads ==> uploads[id].id == id && UploadOk(uploads[id], disk, src, digest)
  }

  predicate Inv(s: Service, src: Sources, digest: Digest) {
    TempsOk(s.disk, src) && UploadsOk(s.uploads, s.disk, src, digest)
  }

  /** Temporaries that both disks have only grow. */
  predicate Grows(disk: Disk, disk': Disk) {
    forall p :: p in disk && p in disk' && p.Temporary? && disk[p].Regular? && disk'[p].Regular? ==>
      disk[p].data <= disk'[p].data
  }

  /** No name of a destination changes. */
  ghost predicate SameNames(disk: Disk, disk': Disk) {
    forall t {:trigger Named(t)} :: (Named(t) in disk <==> Named(t) in disk')
                                    && (Named(t) in disk ==> disk'[Named(t)] == disk[Named(t)])
  }

  predicate KeepsTemps(disk: Disk, disk': Disk) {
    forall p :: p in disk && p.Temporary? ==> p in disk'
  }

  lemma OpenOk(disk: Disk, p: Path, src: Sources)
    requires TempsOk(disk, src) && p.Temporary?
    ensures var d := Open(disk, p);
            && d.Some? && TempsOk(d.value, src) && p in d.value && SameNames(disk, d.value)
            && Grows(disk, d.value) && KeepsTemps(disk, d.value)
            && (p in disk ==> d.value == disk)
  {
  }

  lemma UploadsKept(uploads: map<string, Upload>, disk: Disk, disk': Disk, src: Sources, digest: Digest)
    requires UploadsOk(uploads, disk, src, digest) && Grows(disk, disk') && KeepsTemps(disk, disk')
        && TempsOk(disk', src)
    ensures UploadsOk(uploads, disk', src, digest)
  {
    forall id | id in uploads ensures UploadOk(uploads[id], disk', src, digest) {
      assert UploadOk(uploads[id], disk, src, digest);
    }
  }

  lemma BeginOk(s: Service, r: Begin, src: Sources, digest: Digest, quota: bool)
    requires Inv(s, src, digest) && Honest(src, digest, Begins(r, quota))
    ensures var (s', _) := s.BeginUpload(r, digest, quota);
            Inv(s', src, digest) && Grows(s.disk, s'.disk) && KeepsTemps(s.disk, s'.disk) && SameNames(s.disk, s'.disk)
  {
    hide Open, TempsOk, Grows, KeepsTemps, SameNames, CanonicalUuid, UploadsOk, Service.AlreadyThere, Service.Pruned;
    Reflexive(s.disk);
    if r.target.Some? {
      var t := r.target.value;
      var temp := Temporary(t.dir, r.id);
      OpenOk(s.disk, temp, src);
      var ready := Open(s.disk, temp).value;
      PrunedOk(s, src, digest);
      UploadsKept(s.Pruned(), s.disk, ready, src, digest);
      TempIsPrefix(ready, temp, src);
      UploadAdded(s.Pruned(), s.disk, Upload(r.id, t, r.size, r.sha256, r.overwrite, r.size, Completed), src, digest);
      UploadAdded(s.Pruned(), ready, Upload(r.id, t, r.size, r.sha256, r.overwrite, |ready[temp].data|, Active), src,
                  digest);
    }
  }

  lemma PrunedOk(s: Service, src: Sources, digest: Digest)
    requires UploadsOk(s.uploads, s.disk, src, digest)
    ensures UploadsOk(s.Pruned(), s.disk, src, digest)
  {
  }

  lemma UploadAdded(uploads: map<string, Upload>, disk: Disk, u: Upload, src: Sources, digest: Digest)
    requires UploadsOk(uploads, disk, src, digest) && UploadOk(u, disk, src, digest)
    ensures UploadsOk(uploads[u.id := u], disk, src, digest)
  {
  }

  lemma Reflexive(disk: Disk)
    ensures Grows(disk, disk) && KeepsTemps(disk, disk) && SameNames(disk, disk)
  {
  }

  lemma TempIsPrefix(disk: Disk, p: Path, src: Sources)
    requires TempsOk(disk, src) && p in disk && p.Temporary?
    ensures disk[p].Regular? && disk[p].data <= src(p.id)
  {
  }

  /** Writing a slice of the source over a prefix of the source, without a gap, leaves a longer prefix. */
  lemma WriteExtends(file: Bytes, source: Bytes, offset: nat, data: Bytes)
    requires file <= source && offset <= |file| && Slice(source, offset, data)
    ensures var f := WriteAt(file, offset, data);
            file <= f <= source && |f| >= offset + |data|
  {
    var f := WriteAt(file, offset, data);
    assert forall i :: 0 <= i < |f| ==> f[i] == source[i];
  }

  lemma ReplaceTemp(disk: Disk, p: Path, data: Bytes, src: Sources)
    requires TempsOk(disk, src) && p in disk && p.Temporary? && disk[p].Regular?
    requires disk[p].data <= data <= src(p.id)
    ensures var d := disk[p := Regular(data)];
            TempsOk(d, src) && Grows(disk, d) && KeepsTemps(disk, d) && SameNames(disk, d)
  {
  }

  lemma ChunkOk(s: Service, r: Chunk, src: Sources, digest: Digest, written: nat)
    requires Inv(s, src, digest) && Honest(src, digest, Writes(r, written))
    ensures var (s', _) := s.WriteChunk(r, digest, written);
            Inv(s', src, digest) && Grows(s.disk, s'.disk) && KeepsTemps(s.disk, s'.disk) && SameNames(s.disk, s'.disk)
  {
    hide Open, TempsOk, Grows, KeepsTemps, SameNames, WriteAt, CanonicalUuid;
    Reflexive(s.disk);
    if r.id in s.uploads && s.uploads[r.id].state == Active {
      var u := s.uploads[r.id];
      var temp := u.Temp();
      OpenOk(s.disk, temp, src);
      TempIsPrefix(s.disk, temp, src);
      if r.offset == u.offset {
        var file := s.disk[temp].data;
        var part := if written < |r.data| then r.data[..written] else r.data;
        assert Slice(src(r.id), r.offset, part);
        WriteExtends(file, src(r.id), r.offset, part);
        ReplaceTemp(s.disk, temp, WriteAt(file, r.offset, part), src);
        UploadsKept(s.uploads, s.disk, s.disk[temp := Regular(WriteAt(file, r.offset, part))], src, digest);
      }
    }
  }

  lemma DisturbOk(disk: Disk, race: Race, src: Sources)
    requires TempsOk(disk, src)
    ensures var d := Disturb(disk, race); TempsOk(d, src) && Grows(disk, d) && KeepsTemps(disk, d)
  {
  }

  /** A finished temporary is the whole source. */
  lemma FullTemp(disk: Disk, u: Upload, src: Sources, digest: Digest)
    requires TempsOk(disk, src) && UploadOk(u, disk, src, digest) && u.state == Active && u.offset == u.size
    ensures u.Temp() in disk && disk[u.Temp()] == Regular(src(u.id))
  {
  }

  /** The destination may be taken, at the check and at the moment of publication. */
  predicate MayPublish(u: Upload, disk: Disk, later: Disk) {
    var t := Named(u.target);
    if u.overwrite then t in later ==> !later[t].Directory? else t !in disk && t !in later
  }

  /**
    The exact outcome of committing an active upload.  It publishes if and only if every byte was
    committed, no call fails before publication and the destination may be taken; what it publishes
    is exactly the source.  It succeeds if and only if it publishes and can remove the temporary,
    whose name survives only if the destination was a link to it; a commit that fails after the link
    has published leaves the upload active and the temporary in place, and any other failure
    publishes nothing.
   */
  lemma CommitPublishes(s: Service, id: string, src: Sources, digest: Digest, race: Race, fault: Fault)
    requires Inv(s, src, digest) && id in s.uploads && s.uploads[id].state == Active
    ensures var u := s.uploads[id];
            var d := Disturb(s.disk, race);
            var (s', result) := s.CommitUpload(id, digest, race, fault);
            var publishes := CanonicalUuid(id) && u.offset == u.size && fault != BeforePublish
                             && MayPublish(u, s.disk, d);
            var linked := d[Named(u.target) := Regular(src(id))];
            var same := u.overwrite && fault == SameFile && d == linked;
            && (result.Ok? <==> publishes && (u.overwrite || fault != AfterLink))
            && (result.Ok? ==> s' == Service(s.uploads[id := u.(state := Completed)],
                                             if same then linked else linked - {u.Temp()}))
            && (result.Err? && publishes ==> s' == Service(s.uploads, linked) && u.Temp() in s'.disk)
            && (result.Err? && !publishes ==> s' == s || s' == Service(s.uploads, d))
  {
    hide CanonicalUuid, TempsOk;
    var u := s.uploads[id];
    if u.offset == u.size {
      FullTemp(s.disk, u, src, digest);
      assert Open(s.disk, u.Temp()) == Some(s.disk);
      DisturbKeepsTemp(s.disk, race, u.Temp());
      NothingToLink(Disturb(s.disk, race), Named(u.target), Regular(src(id)));
    }
  }

  lemma NothingToLink(disk: Disk, p: Path, node: Node)
    ensures disk == disk[p := node] <==> p in disk && disk[p] == node
  {
    if disk == disk[p := node] {
      assert p in disk[p := node] && disk[p := node][p] == node;
    }
  }

  lemma DisturbKeepsTemp(disk: Disk, race: Race, p: Path)
    requires p in disk && p.Temporary?
    ensures p in Disturb(disk, race) && Disturb(disk, race)[p] == disk[p]
  {
  }

  /** An upload that is over needs its temporary no more, whether the name is removed or not. */
  lemma FinishedUpload(s: Service, id: string, d: Disk, src: Sources, digest: Digest, state: UploadState, removed: bool)
    requires Inv(s, src, digest) && id in s.uploads && state != Active
    requires TempsOk(d, src) && Grows(s.disk, d) && KeepsTemps(s.disk, d)
    ensures var u := s.uploads[id];
            var d' := if removed then d - {u.Temp()} else d;
            Inv(Service(s.uploads[id := u.(state := state)], d'), src, digest) && Grows(s.disk, d')
  {
    var u := s.uploads[id];
    var d' := if removed then d - {u.Temp()} else d;
    var uploads' := s.uploads[id := u.(state := state)];
    forall i | i in uploads' ensures uploads'[i].id == i && UploadOk(uploads'[i], d', src, digest) {
      assert UploadOk(s.uploads[i], s.disk, src, digest);
    }
  }

  lemma CommitOk(s: Service, id: string, src: Sources, digest: Digest, race: Race, fault: Fault)
    requires Inv(s, src, digest)
    ensures var (s', _) := s.CommitUpload(id, digest, race, fault); Inv(s', src, digest) && Grows(s.disk, s'.disk)
  {
    hide CanonicalUuid, TempsOk, UploadsOk, Grows, KeepsTemps, Disturb, Service.CommitUpload;
    Reflexive(s.disk);
    if id in s.uploads && s.uploads[id].state == Active {
      CommitPublishes(s, id, src, digest, race, fault);
      DisturbOk(s.disk, race, src);
      var d, u := Disturb(s.disk, race), s.uploads[id];
      UploadsKept(s.uploads, s.disk, d, src, digest);
      var linked := d[Named(u.target) := Regular(src(id))];
      NamedAside(s.disk, d, u.target, Regular(src(id)), src);
      FinishedUpload(s, id, linked, src, digest, Completed, true);
      FinishedUpload(s, id, linked, src, digest, Completed, false);
      UploadsKept(s.uploads, s.disk, linked, src, digest);
      var (s', result) := s.CommitUpload(id, digest, race, fault);
      assert || s' == Service(s.uploads[id := u.(state := Completed)], linked - {u.Temp()})
             || s' == Service(s.uploads[id := u.(state := Completed)], linked)
             || s' == Service(s.uploads, linked) || s' == s || s' == Service(s.uploads, d);
    } else {
      SettledCommit(s, id, digest, race, fault);
    }
  }

  /** Writing a destination does not touch temporaries. */
  lemma NamedAside(disk: Disk, d: Disk, t: Target, node: Node, src: Sources)
    requires TempsOk(d, src) && Grows(disk, d) && KeepsTemps(disk, d)
    ensures var linked := d[Named(t) := node]; TempsOk(linked, src) && Grows(disk, linked) && KeepsTemps(disk, linked)
  {
  }

  /** Committing an unknown, completed or aborted upload changes nothing; a completed one stays completed. */
  lemma SettledCommit(s: Service, id: string, digest: Digest, race: Race, fault: Fault)
    requires id in s.uploads ==> s.uploads[id].state != Active
    ensures var (s', result) := s.CommitUpload(id, digest, race, fault);
            && s' == s
            && (result.Ok? <==> CanonicalUuid(id) && id in s.uploads && s.uploads[id].state == Completed)
  {
  }

  lemma AbortOk(s: Service, id: string, src: Sources, digest: Digest)
    requires Inv(s, src, digest)
    ensures var (s', _) := s.AbortUpload(id);
            Inv(s', src, digest) && Grows(s.disk, s'.disk) && SameNames(s.disk, s'.disk)
  {
    hide CanonicalUuid, TempsOk, UploadsOk, Grows, KeepsTemps;
    Reflexive(s.disk);
    if id in s.uploads {
      FinishedUpload(s, id, s.disk, src, digest, Aborted, true);
    }
  }

  lemma NextOk(s: Service, src: Sources, digest: Digest, e: Event)
    requires Inv(s, src, digest) && Honest(src, digest, e)
    ensures var s' := Next(s, digest, e).0; Inv(s', src, digest) && Grows(s.disk, s'.disk)
  {
    hide Service.BeginUpload, Service.WriteChunk, Service.CommitUpload, Service.AbortUpload, Honest, TempsOk, Grows,
      KeepsTemps, Disturb, UploadOk, SameNames;
    match e
    case Begins(r, quota) => BeginOk(s, r, src, digest, quota);
    case Writes(r, written) => ChunkOk(s, r, src, digest, written);
    case Commits(id, race, fault) => CommitOk(s, id, src, digest, race, fault);
    case Aborts(id) => AbortOk(s, id, src, digest);
    case Restarts => Reflexive(s.disk);
    case Others(race) =>
      DisturbOk(s.disk, race, src);
      UploadsKept(s.uploads, s.disk, Disturb(s.disk, race), src, digest);
  }

  /**
    Over every run of begins, chunks, replays, failed or partial writes, commits, aborts, restarts
    and interference by other processes: each temporary holds a prefix of its source, and the
    committed part of every active upload is that part of the source.
   */
  lemma {:induction false} RunOk(s: Service, src: Sources, digest: Digest, es: seq<Event>)
    requires s.uploads == map[] && TempsOk(s.disk, src) && AllHonest(src, digest, es)
    ensures Inv(After(s, digest, es), src, digest)
  {
    hide Next, TempsOk, Honest, Inv;
    if es == [] {
      FreshService(s, src, digest);
    } else {
      RunOk(s, src, digest, es[..|es| - 1]);
      NextOk(After(s, digest, es[..|es| - 1]), src, digest, es[|es| - 1]);
    }
  }

  lemma FreshService(s: Service, src: Sources, digest: Digest)
    requires s.uploads == map[] && TempsOk(s.disk, src)
    ensures Inv(s, src, digest)
  {
  }

  lemma CommittedPrefix(s: Service, src: Sources, digest: Digest, es: seq<Event>, id: string)
    requires s.uploads == map[] && TempsOk(s.disk, src) && AllHonest(src, digest, es)
    requires id in After(s, digest, es).uploads && After(s, digest, es).uploads[id].state == Active
    ensures var w := After(s, digest, es);
            var u := w.uploads[id];
            && u.Temp() in w.disk && w.disk[u.Temp()].Regular?
            && u.offset <= |w.disk[u.Temp()].data| && u.offset <= |src(id)|
            && w.disk[u.Temp()].data[..u.offset] == src(id)[..u.offset]
  {
    hide After, TempsOk, Honest;
    RunOk(s, src, digest, es);
    var w := After(s, digest, es);
    TempIsPrefix(w.disk, w.uploads[id].Temp(), src);
  }

  // ---------------------------------------------------------------- publication

  /** What other processes did during a step. */
  function RaceOf(e: Event): Race {
    match e
    case Commits(_, race, _) => race
    case Others(race) => race
    case _ => map[]
  }

  function At(disk: Disk, t: Target): Option<Node> {
    if Named(t) in disk then Some(disk[Named(t)]) else None
  }

  /** The step published the source of an active upload at t, and was allowed to. */
  predicate Published(s: Service, s': Service, e: Event, t: Target, src: Sources) {
    && e.Commits? && e.id in s.uploads && s.uploads[e.id].state == Active && s.uploads[e.id].target == t
    && At(s'.disk, t) == Some(Regular(src(e.id)))
    && (s.uploads[e.id].overwrite || (At(s.disk, t).None? && At(Disturb(s.disk, e.race), t).None?))
  }

  /**
    In every step a destination name stays as it was, or becomes what another process made of it,
    or receives the complete source of an upload being committed.  Without overwrite the last
    happens only if the name was free at the check and still free at publication.
   */
  lemma OnlyCommitsPublish(s: Service, src: Sources, digest: Digest, e: Event, t: Target)
    requires Inv(s, src, digest) && Honest(src, digest, e)
    ensures var s' := Next(s, digest, e).0;
            || At(s'.disk, t) == At(s.disk, t)
            || At(s'.disk, t) == At(Disturb(s.disk, RaceOf(e)), t)
            || Published(s, s', e, t, src)
  {
    hide Inv, Service.BeginUpload, Service.WriteChunk, Service.CommitUpload, Service.AbortUpload, Honest, Disturb;
    match e
    case Begins(r, quota) =>
      BeginOk(s, r, src, digest, quota);
      NameKept(s.disk, Next(s, digest, e).0.disk, t);
    case Writes(r, written) =>
      ChunkOk(s, r, src, digest, written);
      NameKept(s.disk, Next(s, digest, e).0.disk, t);
    case Aborts(id) =>
      AbortOk(s, id, src, digest);
      NameKept(s.disk, Next(s, digest, e).0.disk, t);
    case Restarts =>
    case Others(_) =>
    case Commits(id, race, fault) =>
      if id in s.uploads && s.uploads[id].state == Active {
        CommitPublishes(s, id, src, digest, race, fault);
      } else {
        SettledCommit(s, id, digest, race, fault);
      }
  }

  /** No other process touches t during the run, and no overwriting upload to t is committed. */
  predicate Spares(s: Service, digest: Digest, es: seq<Event>, t: Target) {
    es != [] ==>
      var fore, e := es[..|es| - 1], es[|es| - 1];
      var uploads := After(s, digest, fore).uploads;
      && Spares(s, digest, fore, t) && t !in RaceOf(e)
      && !(e.Commits? && e.id in uploads && uploads[e.id].target == t && uploads[e.id].overwrite)
  }

  /**
    No clobbering: over every honest run, whatever is at a destination stays there unless another
    process changes it or an upload to it is committed that was begun with permission to overwrite.
   */
  lemma {:induction false} NoClobber(s: Service, src: Sources, digest: Digest, es: seq<Event>, t: Target)
    requires Inv(s, src, digest) && AllHonest(src, digest, es) && At(s.disk, t).Some? && Spares(s, digest, es, t)
    ensures var w := After(s, digest, es); Inv(w, src, digest) && At(w.disk, t) == At(s.disk, t)
  {
    hide Next, Honest, Inv, Disturb;
    if es != [] {
      var fore, e := es[..|es| - 1], es[|es| - 1];
      NoClobber(s, src, digest, fore, t);
      var m := After(s, digest, fore);
      NextOk(m, src, digest, e);
      OnlyCommitsPublish(m, src, digest, e, t);
      Untouched(m.disk, RaceOf(e), t);
    }
  }

  lemma Untouched(disk: Disk, race: Race, t: Target)
    requires t !in race
    ensures At(Disturb(disk, race), t) == At(disk, t)
  {
  }

  lemma NameKept(disk: Disk, disk': Disk, t: Target)
    requires SameNames(disk, disk')
    ensures At(disk', t) == At(disk, t)
  {
    assert Named(t) in disk <==> Named(t) in disk';
  }

  // ---------------------------------------------------------------- committed bytes and replays

  predicate LeavesAlone(es: seq<Event>, id: string) {
    forall i :: 0 <= i < |es| ==> !(es[i].Commits? && es[i].id == id) && !(es[i].Aborts? && es[i].id == id)
  }

  lemma TempStays(s: Service, src: Sources, digest: Digest, e: Event, p: Path)
    requires Inv(s, src, digest) && Honest(src, digest, e) && p in s.disk && p.Temporary?
    requires !(e.Commits? && e.id == p.id) && !(e.Aborts? && e.id == p.id)
    ensures p in Next(s, digest, e).0.disk
  {
    hide TempsOk, Service.BeginUpload, Service.WriteChunk, Service.CommitUpload, UploadOk, Honest, Disturb, Grows,
        SameNames;
    match e
    case Begins(r, quota) => BeginOk(s, r, src, digest, quota);
    case Writes(r, written) => ChunkOk(s, r, src, digest, written);
    case Aborts(id) =>
    case Restarts =>
    case Others(race) => DisturbKeepsTemp(s.disk, race, p);
    case Commits(id, race, fault) =>
      DisturbKeepsTemp(s.disk, race, p);
      if id in s.uploads && s.uploads[id].state == Active {
        CommitPublishes(s, id, src, digest, race, fault);
      } else {
        SettledCommit(s, id, digest, race, fault);
      }
  }

  /** Bytes once written never change: until its own commit or abort, a temporary only grows, restarts included. */
  lemma {:induction false} CommittedBytesStay(s: Service, src: Sources, digest: Digest, es: seq<Event>, p: Path)
    requires Inv(s, src, digest) && AllHonest(src, digest, es)
    requires p in s.disk && p.Temporary? && LeavesAlone(es, p.id)
    ensures var w := After(s, digest, es);
            && Inv(w, src, digest) && p in w.disk && w.disk[p].Regular? && s.disk[p].Regular?
            && s.disk[p].data <= w.disk[p].data
  {
    hide Next, Honest, Inv;
    if es == [] {
      PrefixAt(s, s, src, digest, p);
    } else {
      var fore, e := es[..|es| - 1], es[|es| - 1];
      CommittedBytesStay(s, src, digest, fore, p);
      var m := After(s, digest, fore);
      NextOk(m, src, digest, e);
      TempStays(m, src, digest, e, p);
      PrefixAt(m, Next(m, digest, e).0, src, digest, p);
    }
  }

  lemma PrefixAt(m: Service, w: Service, src: Sources, digest: Digest, p: Path)
    requires Inv(m, src, digest) && Inv(w, src, digest) && p in m.disk && p in w.disk && p.Temporary?
    requires m == w || Grows(m.disk, w.disk)
    ensures m.disk[p].Regular? && w.disk[p].Regular? && m.disk[p].data <= w.disk[p].data
  {
  }

  predicate WellFormedChunk(r: Chunk, digest: Digest) {
    && r.encoding == 0 && r.uncompressedSize == 0 && CanonicalUuid(r.id)
    && 0 < |r.data| <= MAX_FILE_CHUNK_SIZE && |r.sha256| == 32 && digest(r.data) == r.sha256
  }

  /** The stored bytes that a replayed chunk is compared with. */
  predicate Stored(file: Bytes, offset: nat, data: Bytes) {
    offset + |data| <= |file| && file[offset..offset + |data|] == data
  }

  /**
    A chunk for an active upload, honest or not: it is accepted if and only if it continues the
    committed prefix or repeats committed bytes exactly.  A replay changes nothing at all, an
    accepted continuation moves the offset to its end, and a refused chunk moves nothing.
   */
  lemma ChunkAccepted(s: Service, r: Chunk, src: Sources, digest: Digest, written: nat)
    requires Inv(s, src, digest) && WellFormedChunk(r, digest)
    requires r.id in s.uploads && s.uploads[r.id].state == Active
    ensures var u := s.uploads[r.id];
            var file := s.disk[u.Temp()].data;
            var (s', result) := s.WriteChunk(r, digest, written);
            var replay := r.offset < u.offset;
            && u.Temp() in s.disk && s.disk[u.Temp()].Regular?
            && (result.Ok? <==>
                  && r.offset + |r.data| <= u.size
                  && (if replay then r.offset + |r.data| <= u.offset && Stored(file, r.offset, r.data)
                      else r.offset == u.offset && written >= |r.data|))
            && (replay ==> s' == s)
            && (result.Ok? ==>
                  result.value == Status(r.id, u.size, if replay then u.offset else r.offset + |r.data|, Active))
            && (result.Err? ==> s'.uploads == s.uploads)
  {
    hide CanonicalUuid, WriteAt;
    var u := s.uploads[r.id];
    assert UploadOk(u, s.disk, src, digest);
    TempIsPrefix(s.disk, u.Temp(), src);
  }

  /** An honest replay of committed bytes always succeeds. */
  lemma HonestReplay(s: Service, r: Chunk, src: Sources, digest: Digest, written: nat)
    requires Inv(s, src, digest) && WellFormedChunk(r, digest) && Slice(src(r.id), r.offset, r.data)
    requires r.id in s.uploads && s.uploads[r.id].state == Active
    requires r.offset + |r.data| <= s.uploads[r.id].offset
    ensures s.WriteChunk(r, digest, written) == (s, Ok(s.uploads[r.id].Report()))
  {
    hide CanonicalUuid, WriteAt, Service.WriteChunk;
    var u := s.uploads[r.id];
    assert UploadOk(u, s.disk, src, digest);
    TempIsPrefix(s.disk, u.Temp(), src);
    ChunkAccepted(s, r, src, digest, written);
  }

  // ---------------------------------------------------------------- resuming after a restart

  /** The chunks that are still missing from offset k on. */
  function Remaining(source: Bytes, id: string, digest: Digest, k: nat): seq<Event>
    requires k <= |source|
    decreases |source| - k
  {
    if k == |source| then []
    else
      var n := if |source| - k < MAX_FILE_CHUNK_SIZE then |source| - k else MAX_FILE_CHUNK_SIZE;
      [Writes(Chunk(id, k, source[k..k + n], digest(source[k..k + n]), 0, 0), n)] + Remaining(source, id, digest, k + n)
  }

  lemma {:induction false} AfterFirst(s: Service, digest: Digest, e: Event, rest: seq<Event>)
    ensures After(s, digest, [e] + rest) == After(Next(s, digest, e).0, digest, rest)
  {
    hide Next;
    if rest == [] {
      assert ([e] + rest)[..0] == [];
      assert [e] + rest == [e];
    } else {
      AfterFirst(s, digest, e, rest[..|rest| - 1]);
      assert ([e] + rest)[..|rest|] == [e] + rest[..|rest| - 1];
    }
  }

  /** An active upload whose temporary ends exactly at the committed offset. */
  predicate Aligned(s: Service, u: Upload, source: Bytes) {
    && u.id in s.uploads && s.uploads[u.id] == u && u.state == Active && u.size == |source| && u.offset <= u.size
    && CanonicalUuid(u.id)
    && u.Temp() in s.disk && s.disk[u.Temp()] == Regular(source[..u.offset])
  }

  lemma ChunkContinues(s: Service, u: Upload, source: Bytes, digest: Digest, n: nat)
    requires Aligned(s, u, source) && 0 < n <= MAX_FILE_CHUNK_SIZE && u.offset + n <= |source|
    requires forall b :: |digest(b)| == 32
    ensures var data := source[u.offset..u.offset + n];
            var s' := Next(s, digest, Writes(Chunk(u.id, u.offset, data, digest(data), 0, 0), n)).0;
            var u' := u.(offset := u.offset + n);
            s' == Service(s.uploads[u.id := u'], s.disk[u.Temp() := Regular(source[..u.offset + n])])
            && Aligned(s', u', source)
  {
    hide CanonicalUuid;
    var data := source[u.offset..u.offset + n];
    assert WriteAt(source[..u.offset], u.offset, data) == source[..u.offset + n];
  }

  lemma {:induction false} RemainderArrives(s: Service, u: Upload, source: Bytes, digest: Digest)
    requires Aligned(s, u, source)
    requires forall b :: |digest(b)| == 32
    ensures var w := After(s, digest, Remaining(source, u.id, digest, u.offset));
            && Aligned(w, u.(offset := |source|), source)
            && w.disk == s.disk[u.Temp() := Regular(source)]
    decreases |source| - u.offset
  {
    hide Next, CanonicalUuid;
    if u.offset == |source| {
      assert source[..u.offset] == source;
      assert s.disk[u.Temp() := Regular(source)] == s.disk;
      assert u.(offset := |source|) == u;
    } else {
      var n := if |source| - u.offset < MAX_FILE_CHUNK_SIZE then |source| - u.offset else MAX_FILE_CHUNK_SIZE;
      ChunkContinues(s, u, source, digest, n);
      var data := source[u.offset..u.offset + n];
      var e := Writes(Chunk(u.id, u.offset, data, digest(data), 0, 0), n);
      AfterFirst(s, digest, e, Remaining(source, u.id, digest, u.offset + n));
      var s' := Next(s, digest, e).0;
      RemainderArrives(s', u.(offset := u.offset + n), source, digest);
      assert s'.disk[u.Temp() := Regular(source)] == s.disk[u.Temp() := Regular(source)];
    }
  }

  /** Chunks for a completed upload change nothing. */
  lemma {:induction false} CompletedIgnores(s: Service, source: Bytes, id: string, digest: Digest, k: nat)
    requires k <= |source| && id in s.uploads && s.uploads[id].state == Completed
    ensures After(s, digest, Remaining(source, id, digest, k)) == s
    decreases |source| - k
  {
    hide CanonicalUuid;
    if k < |source| {
      var n := if |source| - k < MAX_FILE_CHUNK_SIZE then |source| - k else MAX_FILE_CHUNK_SIZE;
      var e := Writes(Chunk(id, k, source[k..k + n], digest(source[k..k + n]), 0, 0), n);
      AfterFirst(s, digest, e, Remaining(source, id, digest, k + n));
      CompletedIgnores(s, source, id, digest, k + n);
    }
  }

  /** Where a temporary of this transfer ends, and where a begin therefore resumes. */
  function LeftBehind(disk: Disk, temp: Path): nat {
    if temp in disk && disk[temp].Regular? then |disk[temp].data| else 0
  }

  /** A begin on a fresh service finds the destination complete, or resumes at the end of the temporary. */
  lemma BeginResumes(s: Service, r: Begin, src: Sources, digest: Digest)
    requires TempsOk(s.disk, src) && s.uploads == map[] && Honest(src, digest, Begins(r, true))
    requires CanonicalUuid(r.id) && r.target.Some? && forall b :: |digest(b)| == 32
    requires s.AlreadyThere(r, r.target.value, digest) || Named(r.target.value) !in s.disk || r.overwrite
    ensures var t := r.target.value;
            var k := LeftBehind(s.disk, Temporary(t.dir, r.id));
            var u := Upload(r.id, t, r.size, r.sha256, r.overwrite, k, Active);
            var s' := s.BeginUpload(r, digest, true).0;
            && k <= |src(r.id)|
            && (if s.AlreadyThere(r, t, digest)
                then r.id in s'.uploads && s'.uploads[r.id].state == Completed && s'.disk == s.disk
                else Aligned(s', u, src(r.id)) && (forall x :: At(s'.disk, x) == At(s.disk, x)))
  {
    hide CanonicalUuid;
    var temp := Temporary(r.target.value.dir, r.id);
    if temp in s.disk {
      TempIsPrefix(s.disk, temp, src);
    }
  }

  /**
    From every state, whatever temporary was left behind: restarting the service, beginning the same
    transfer again, sending what the reported offset says is missing and committing publishes exactly
    the source, on a free destination or over anything but a directory if overwriting is allowed.  If the
    destination already has the announced size and digest, the same exchange leaves the disk alone.
   */
  lemma ResumeCompletes(s: Service, r: Begin, src: Sources, digest: Digest)
    requires Inv(s, src, digest) && Honest(src, digest, Begins(r, true))
    requires CanonicalUuid(r.id) && r.target.Some?
    requires var there := At(s.disk, r.target.value);
             s.AlreadyThere(r, r.target.value, digest) || there.None? || (r.overwrite && !there.value.Directory?)
    requires forall b :: |digest(b)| == 32
    ensures var temp := Temporary(r.target.value.dir, r.id);
            var k := LeftBehind(s.disk, temp);
            && k <= |src(r.id)|
            && var w := After(s, digest, [Restarts] + ([Begins(r, true)] + (Remaining(src(r.id), r.id, digest, k)
                                         + [Commits(r.id, map[], NoFault)])));
            && if s.AlreadyThere(r, r.target.value, digest) then w.disk == s.disk
               else At(w.disk, r.target.value) == Some(Regular(src(r.id))) && temp !in w.disk
  {
    hide CanonicalUuid, Remaining, Service.CommitUpload, Service.BeginUpload, Disturb, Service.WriteChunk;
    var t := r.target.value;
    var s1 := Service(map[], s.disk);
    BeginResumes(s1, r, src, digest);
    var k := LeftBehind(s.disk, Temporary(t.dir, r.id));
    var rest, commit := Remaining(src(r.id), r.id, digest, k), Commits(r.id, map[], NoFault);
    AfterFirst(s, digest, Restarts, [Begins(r, true)] + (rest + [commit]));
    AfterFirst(s1, digest, Begins(r, true), rest + [commit]);
    var s2 := s1.BeginUpload(r, digest, true).0;
    var s3 := After(s2, digest, rest);
    assert (rest + [commit])[..|rest|] == rest;
    if s.AlreadyThere(r, t, digest) {
      CompletedIgnores(s2, src(r.id), r.id, digest, k);
      SettledCommit(s3, r.id, digest, map[], NoFault);
    } else {
      var u := Upload(r.id, t, r.size, r.sha256, r.overwrite, k, Active);
      RemainderArrives(s2, u, src(r.id), digest);
      assert At(s3.disk, t) == At(s.disk, t);
      LastStep(s3, u.(offset := r.size), src, digest);
    }
  }

  lemma LastStep(s: Service, u: Upload, src: Sources, digest: Digest)
    requires Aligned(s, u, src(u.id)) && u.offset == u.size
    requires At(s.disk, u.target).None? || (u.overwrite && !At(s.disk, u.target).value.Directory?)
    requires u.expected == [] || u.expected == digest(src(u.id))
    ensures var w := Next(s, digest, Commits(u.id, map[], NoFault)).0;
            At(w.disk, u.target) == Some(Regular(src(u.id))) && u.Temp() !in w.disk
  {
    hide CanonicalUuid;
    assert src(u.id)[..u.offset] == src(u.id);
    assert Disturb(s.disk, map[]) == s.disk;
  }

  /** A complete temporary is never written again, so a destination linked to it keeps its bytes. */
  lemma CompleteTempIsFixed(s: Service, src: Sources, digest: Digest, e: Event, p: Path)
    requires Inv(s, src, digest) && Honest(src, digest, e)
    requires p in s.disk && p.Temporary? && s.disk[p] == Regular(src(p.id))
    ensures p in Next(s, digest, e).0.disk ==> Next(s, digest, e).0.disk[p] == s.disk[p]
  {
    hide Next, Honest, Inv;
    NextOk(s, src, digest, e);
    if p in Next(s, digest, e).0.disk {
      PrefixAt(s, Next(s, digest, e).0, src, digest, p);
      TempWithin(Next(s, digest, e).0, src, digest, p);
    }
  }

  lemma TempWithin(s: Service, src: Sources, digest: Digest, p: Path)
    requires Inv(s, src, digest) && p in s.disk && p.Temporary?
    ensures s.disk[p].Regular? && s.disk[p].data <= src(p.id)
  {
  }

  /** A begin that answers "completed" without any upload found the announced size and digest at the destination. */
  lemma BeginCompleted(s: Service, r: Begin, digest: Digest, quota: bool)
    requires r.id !in s.uploads
    ensures var (s', result) := s.BeginUpload(r, digest, quota);
            && (result.Ok? && result.value.state == Completed ==>
                  r.target.Some? && At(s.disk, r.target.value).Some? && At(s.disk, r.target.value).value.Regular?
                  && digest(At(s.disk, r.target.value).value.data) == r.sha256
                  && |At(s.disk, r.target.value).value.data| == r.size && s'.disk == s.disk)
            && (result.Ok? ==> result.value.state != Aborted)
  {
    hide CanonicalUuid;
  }
}
