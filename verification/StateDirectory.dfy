/**
  The helper's journal directory as a crash-prone file system.

  A name and a file each have a value that running processes see now, and the set of values a
  crash may leave behind: every value taken since the last successful sync. Syncing a file or the
  directory shrinks that set to the current value. O_EXCL creation and atomic rename are POSIX.
*/
module StateDirectory {
  import opened Wrappers
  import opened RuntimeProtocol

  datatype Status = Started | Finished

  datatype Record = Record(requestId: Id, targetId: string, status: Status, response: Option<Response>)

  // An empty or partly written file does not parse.
  datatype Content = Torn | Whole(record: Record)

  datatype Name = Json(id: Id) | Tmp(id: Id)

  type Inode = nat

  datatype Entry = Entry(now: Option<Inode>, maybe: set<Option<Inode>>)

  // `owner` is the request id whose name the file was created under; no code reads it.
  datatype File = File(owner: Id, now: Content, maybe: set<Content>)

  datatype Disk = Disk(names: map<Name, Entry>, files: map<Inode, File>)

  const EMPTY := Disk(map[], map[])

  function Look(d: Disk, n: Name): Entry {
    if n in d.names then d.names[n] else Entry(None, {None})
  }

  predicate Missing(d: Disk, id: Id) { Look(d, Json(id)).now.None? }

  function Point(d: Disk, n: Name, to: Option<Inode>): Disk {
    d.(names := d.names[n := Entry(to, Look(d, n).maybe + {to})])
  }

  function Put(d: Disk, f: Inode, c: Content): Disk
    requires f in d.files
  {
    var file := d.files[f];
    d.(files := d.files[f := file.(now := c, maybe := file.maybe + {c})])
  }

  /** A fresh empty file under name `n`. */
  function Create(d: Disk, n: Name, f: Inode): Disk {
    Point(d.(files := d.files[f := File(n.id, Torn, {Torn})]), n, Some(f))
  }

  function SyncFile(d: Disk, f: Inode): Disk
    requires f in d.files
  {
    var file := d.files[f];
    d.(files := d.files[f := file.(maybe := {file.now})])
  }

  function SyncDirectory(d: Disk): Disk {
    d.(names := map n | n in d.names :: Entry(d.names[n].now, {d.names[n].now}))
  }

  /** The temporary name is moved over the journal name in one step. */
  function Rename(d: Disk, id: Id): Disk
    requires Look(d, Tmp(id)).now.Some?
  {
    Point(Point(d, Json(id), Look(d, Tmp(id)).now), Tmp(id), None)
  }

  /** What a crash may leave: one allowed value for every name and every file. */
  predicate MayRemain(d: Disk, names: map<Name, Option<Inode>>, files: map<Inode, Content>) {
    && names.Keys == d.names.Keys && (forall n | n in names :: names[n] in d.names[n].maybe)
    && files.Keys == d.files.Keys && (forall f | f in files :: files[f] in d.files[f].maybe)
  }

  function Crash(d: Disk, names: map<Name, Option<Inode>>, files: map<Inode, Content>): Disk
    requires MayRemain(d, names, files)
  {
    Disk(map n | n in d.names :: Entry(names[n], {names[n]}),
         map f | f in d.files :: File(d.files[f].owner, files[f], {files[f]}))
  }
}
