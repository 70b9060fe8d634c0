/**
 A file system that can crash.  Writes reach the disk at once; a crash leaves any strict prefix of
 the write in progress, and a rename happens wholly or not at all.
 */
module MemFileSystem {
  import opened ByteStrings

  datatype RenameFault = NoFault | Before | AfterSwap

  function Zeros(n: nat): (z: Bytes)
    ensures |z| == n
  {
    seq(n, _ => 0)
  }

  /** Overwrite cur from off on with p, padding a gap with zeros. */
  function WriteAt(cur: Bytes, off: nat, p: Bytes): (r: Bytes)
    ensures off == |cur| ==> r == cur + p
  {
    var need := off + |p|;
    var whole := if need > |cur| then cur + Zeros(need - |cur|) else cur;
    whole[..off] + p + whole[need..]
  }

  function ContentOf(files: map<string, Bytes>, name: string): Bytes {
    if name in files then files[name] else []
  }

  class MemFs {
    var files: map<string, Bytes>
    var crashed: bool

    /** Byte limits of the coming writes, one per write; a negative or missing one lets the write through. */
    var faultWrites: seq<int>
    var faultRename: RenameFault

    constructor ()
      ensures files == map[] && !crashed && faultWrites == [] && faultRename == NoFault
    {
      files, crashed, faultWrites, faultRename := map[], false, [], NoFault;
    }

    ghost function Content(name: string): Bytes
      reads this
    {
      ContentOf(files, name)
    }

    /** No fault is armed. */
    ghost predicate Calm()
      reads this
    {
      faultWrites == [] && faultRename == NoFault
    }

    method Arm(writes: seq<int>, rename: RenameFault)
      modifies this
      ensures faultWrites == writes && faultRename == rename && files == old(files) && crashed == old(crashed)
    {
      faultWrites, faultRename := writes, rename;
    }

    /** The same disk after a restart of the process. */
    method Reboot()
      modifies this
      ensures !crashed && faultWrites == [] && faultRename == NoFault && files == old(files)
    {
      crashed, faultWrites, faultRename := false, [], NoFault;
    }

    method Create(name: string) returns (ok: bool, f: MemFile?)
      modifies this
      ensures ok == !old(crashed) && crashed == old(crashed) && Calm() == old(Calm())
      ensures ok ==> f != null && fresh(f) && f.fs == this && f.name == name && f.off == 0 && files == old(files)[name := []]
      ensures !ok ==> files == old(files)
    {
      if crashed {
        return false, null;
      }
      files := files[name := []];
      f := new MemFile(this, name, 0);
      ok := true;
    }

    method OpenAppend(name: string) returns (ok: bool, f: MemFile?)
      modifies this
      ensures ok == !old(crashed) && crashed == old(crashed) && Calm() == old(Calm())
      ensures ok ==> f != null && fresh(f) && f.fs == this && f.name == name && f.off == |Content(name)|
      ensures files == old(files) || files == old(files)[name := []]
      ensures forall m :: Content(m) == ContentOf(old(files), m)
    {
      if crashed {
        return false, null;
      }
      if name !in files {
        files := files[name := []];
      }
      f := new MemFile(this, name, |files[name]|);
      ok := true;
    }

    method ReadFile(name: string) returns (ok: bool, data: Bytes)
      ensures ok == !crashed && (ok ==> data == Content(name))
    {
      if crashed {
        return false, [];
      }
      return true, if name in files then files[name] else [];
    }

    method Truncate(name: string, size: nat) returns (ok: bool)
      modifies this
      ensures ok == (!old(crashed) && name in old(files) && size <= |old(files)[name]|) && crashed == old(crashed)
      ensures ok ==> files == old(files)[name := old(files)[name][..size]]
      ensures !ok ==> files == old(files)
    {
      if crashed || name !in files || |files[name]| < size {
        return false;
      }
      files := files[name := files[name][..size]];
      ok := true;
    }

    /** A missing old file renames to an empty one. */
    method Rename(oldPath: string, newPath: string) returns (ok: bool)
      modifies this
      ensures old(crashed) ==> !ok && crashed && files == old(files)
      ensures !old(crashed) ==> crashed == !ok
      ensures !old(crashed) && old(Calm()) ==> ok && Calm()
      ensures ok ==> files == old(files)[newPath := ContentOf(old(files), oldPath)] - {oldPath}
      ensures !ok ==> files == old(files) || files == old(files)[newPath := ContentOf(old(files), oldPath)] - {oldPath}
    {
      if crashed {
        return false;
      }
      if faultRename == Before {
        crashed := true;
        return false;
      }
      files := files[newPath := ContentOf(files, oldPath)] - {oldPath};
      if faultRename == AfterSwap {
        crashed := true;
        return false;
      }
      ok := true;
    }
  }

  class MemFile {
    const fs: MemFs
    const name: string
    var off: nat

    constructor (fs: MemFs, name: string, off: nat)
      ensures this.fs == fs && this.name == name && this.off == off
    {
      this.fs, this.name, this.off := fs, name, off;
    }

    /** Write p at the offset; a fault stops the write after a strict prefix and crashes the file system. */
    method Write(p: Bytes) returns (ok: bool)
      modifies this, fs
      ensures old(fs.crashed) ==> !ok && fs.crashed && fs.files == old(fs.files)
      ensures !old(fs.crashed) ==> fs.crashed == !ok
      ensures !old(fs.crashed) && old(fs.Calm()) ==> ok && fs.Calm()
      ensures ok ==> off == old(off) + |p| && fs.files == old(fs.files)[name := WriteAt(old(fs.Content(name)), old(off), p)]
      ensures !ok && !old(fs.crashed) ==>
                exists k: nat :: k < |p| && fs.files == old(fs.files)[name := WriteAt(old(fs.Content(name)), old(off), p[..k])]
    {
      if fs.crashed {
        return false;
      }
      if fs.faultWrites != [] {
        var limit := fs.faultWrites[0];
        fs.faultWrites := fs.faultWrites[1..];
        if 0 <= limit < |p| {
          Put(p[..limit]);
          fs.crashed := true;
          return false;
        }
      }
      Put(p);
      ok := true;
    }

    method Put(p: Bytes)
      modifies this`off, fs`files
      ensures off == old(off) + |p| && fs.files == old(fs.files)[name := WriteAt(old(fs.Content(name)), old(off), p)]
    {
      var cur := if name in fs.files then fs.files[name] else [];
      var need := off + |p|;
      if need > |cur| {
        cur := cur + Zeros(need - |cur|);
      }
      fs.files := fs.files[name := cur[..off] + p + cur[need..]];
      off := need;
    }
  }

  /** Replace the content of path by data: write a temporary file, then rename it. */
  method AtomicWrite(fs: MemFs, path: string, data: Bytes) returns (ok: bool)
    requires !fs.crashed
    modifies fs
    ensures fs.crashed == !ok && (old(fs.Calm()) ==> ok && fs.Calm())
    ensures fs.Content(path) == data || (!ok && fs.Content(path) == old(fs.Content(path)))
    ensures forall m :: m != path && m != path + ".tmp" ==> fs.Content(m) == ContentOf(old(fs.files), m)
  {
    var tmp := path + ".tmp";
    assert |tmp| != |path|;
    var created, f := fs.Create(tmp);
    var wrote := f.Write(data);
    if !wrote {
      return false;
    }
    assert fs.Content(tmp) == data;
    ok := fs.Rename(tmp, path);
  }
}
