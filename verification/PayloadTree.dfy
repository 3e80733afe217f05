/** Directory trees with unsynced parts, and the recursive flush of a staged payload. */
module PayloadTree {
  type Name = nat
  type Data = nat

  /** An entry as the kernel sees it: which file contents and which directory listings have
      reached the disk since they were last changed. */
  datatype Node =
    | File(name: Name, data: Data, synced: bool)
    | Dir(name: Name, entries: seq<Node>, synced: bool)
    | Link(name: Name)
    | Special(name: Name)

  /** What a reader finds. */
  datatype Content =
    | FileContent(name: Name, data: Data)
    | DirContent(name: Name, entries: seq<Content>)
    | OtherContent(name: Name)

  function ContentOf(n: Node): Content
    decreases n, 1
  {
    match n
    case File(name, data, _) => FileContent(name, data)
    case Dir(name, entries, _) => DirContent(name, ContentsOf(entries))
    case Link(name) => OtherContent(name)
    case Special(name) => OtherContent(name)
  }

  function ContentsOf(entries: seq<Node>): (cs: seq<Content>)
    ensures |cs| == |entries|
    ensures forall i | 0 <= i < |entries| :: cs[i] == ContentOf(entries[i])
    decreases entries, 0
  {
    if entries == [] then [] else [ContentOf(entries[0])] + ContentsOf(entries[1..])
  }

  /** What may be found after a power loss.  A synced part survives; an unsynced file may hold
      anything, an unsynced listing may name anything. */
  predicate CrashImage(n: Node, c: Content)
    decreases n, 1
  {
    && c.name == n.name
    && match n
       case File(_, data, synced) => c.FileContent? && (synced ==> c.data == data)
       case Dir(_, entries, synced) => c.DirContent? && (synced ==> CrashImages(entries, c.entries))
       case _ => c.OtherContent?
  }

  predicate CrashImages(entries: seq<Node>, cs: seq<Content>)
    decreases entries, 0
  {
    && |cs| == |entries|
    && (entries == [] || (CrashImage(entries[0], cs[0]) && CrashImages(entries[1..], cs[1..])))
  }

  /** Only regular files and directories. */
  predicate Plain(n: Node) {
    match n
    case File(_, _, _) => true
    case Dir(_, entries, _) => forall e | e in entries :: Plain(e)
    case _ => false
  }

  predicate Durable(n: Node) {
    match n
    case File(_, _, synced) => synced
    case Dir(_, entries, synced) => synced && forall e | e in entries :: Durable(e)
    case _ => true
  }

  /** A durable tree has one crash image, its content; ... */
  lemma {:induction false} DurableSurvives(n: Node, c: Content)
    requires Durable(n)
    ensures CrashImage(n, c) <==> c == ContentOf(n)
    decreases n, 1
  {
    if n.Dir? && c.DirContent? {
      AllDurableSurvive(n.entries, c.entries);
    }
  }

  lemma {:induction false} AllDurableSurvive(entries: seq<Node>, cs: seq<Content>)
    requires forall e | e in entries :: Durable(e)
    ensures CrashImages(entries, cs) <==> cs == ContentsOf(entries)
    decreases entries, 0
  {
    if entries != [] && |cs| == |entries| {
      DurableSurvives(entries[0], cs[0]);
      AllDurableSurvive(entries[1..], cs[1..]);
      assert cs == [cs[0]] + cs[1..];
    }
  }

  /** ... a tree that is not durable can come back as something else. */
  lemma {:induction false} OnlyDurableSurvives(n: Node) returns (c: Content)
    requires !Durable(n)
    ensures CrashImage(n, c) && c != ContentOf(n)
    decreases n, 1
  {
    match n {
      case File(name, data, _) => c := FileContent(name, data + 1);
      case Dir(name, entries, synced) =>
        var cs: seq<Content>;
        if synced {
          cs := OneDoesNotSurvive(entries);
        } else {
          cs := ContentsOf(entries) + [OtherContent(0)];
        }
        c := DirContent(name, cs);
    }
  }

  lemma {:induction false} OneDoesNotSurvive(entries: seq<Node>) returns (cs: seq<Content>)
    requires exists e :: e in entries && !Durable(e)
    ensures CrashImages(entries, cs) && cs != ContentsOf(entries)
    decreases entries, 0
  {
    var first := ContentOf(entries[0]);
    var rest: seq<Content>;
    if Durable(entries[0]) {
      rest := OneDoesNotSurvive(entries[1..]);
      DurableSurvives(entries[0], first);
    } else {
      first := OnlyDurableSurvives(entries[0]);
      rest := SomeImages(entries[1..]);
    }
    cs := [first] + rest;
    assert cs[1..] == rest && ContentsOf(entries)[1..] == ContentsOf(entries[1..]);
  }

  lemma {:induction false} SomeImages(entries: seq<Node>) returns (cs: seq<Content>)
    ensures CrashImages(entries, cs)
    decreases entries, 0
  {
    cs := [];
    if entries != [] {
      var first := SomeImage(entries[0]);
      var rest := SomeImages(entries[1..]);
      cs := [first] + rest;
      assert cs[1..] == rest;
    }
  }

  lemma {:induction false} SomeImage(n: Node) returns (c: Content)
    ensures CrashImage(n, c)
    decreases n, 1
  {
    c := ContentOf(n);
    if n.Dir? {
      var cs := SomeImages(n.entries);
      c := DirContent(n.name, cs);
    }
  }

  /** Any system call may fail, for reasons of its own. */
  method SyscallFails(faulty: bool) returns (failed: bool)
    ensures failed ==> faulty
  {
    failed := *;
    failed := failed && faulty;
  }

  /** Entries with the same contents as before, and durable. */
  ghost predicate FlushedUpTo(done: seq<Node>, entries: seq<Node>, n: nat) {
    && |done| == n <= |entries|
    && forall j | 0 <= j < n :: ContentOf(done[j]) == ContentOf(entries[j]) && Durable(done[j]) && Plain(entries[j])
  }

  lemma SameContents(done: seq<Node>, entry: Node, entries: seq<Node>, i: nat)
    requires i < |entries| && FlushedUpTo(done, entries, i) && ContentOf(entry) == ContentOf(entries[i])
    ensures ContentsOf(done + [entry] + entries[i + 1..]) == ContentsOf(entries)
  {
    var all := done + [entry] + entries[i + 1..];
    forall j | 0 <= j < |entries| ensures ContentOf(all[j]) == ContentOf(entries[j]) {
    }
  }

  /** Flush the entries of a directory, files and subdirectories alike, and its listing last;
      refuse symbolic links and special files.  With `faulty` any single flush may fail. */
  method FsyncPayloadTree(root: Node, faulty: bool) returns (ok: bool, flushed: Node)
    requires root.Dir?
    ensures ContentOf(flushed) == ContentOf(root) && flushed.Dir?
    ensures ok ==> Plain(root) && Durable(flushed)
    ensures !faulty && Plain(root) ==> ok
    decreases root
  {
    var done: seq<Node> := [];
    for i := 0 to |root.entries|
      invariant FlushedUpTo(done, root.entries, i)
    {
      var entry := root.entries[i];
      assert entry in root.entries;
      match entry {
        case Dir(_, _, _) =>
          ok, entry := FsyncPayloadTree(entry, faulty);
        case File(name, data, _) =>
          var failed := SyscallFails(faulty);
          ok := !failed;
          if ok {
            entry := File(name, data, true);
          }
        case _ =>
          ok := false;
      }
      if !ok {
        flushed := Dir(root.name, done + [entry] + root.entries[i + 1..], false);
        SameContents(done, entry, root.entries, i);
        return;
      }
      done := done + [entry];
    }
    assert ContentsOf(done) == ContentsOf(root.entries);
    assert forall e | e in done :: Durable(e);
    assert forall e | e in root.entries :: Plain(e);
    var failed := SyscallFails(faulty);
    ok, flushed := !failed, Dir(root.name, done, !failed);
  }
}
