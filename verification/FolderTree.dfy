/** Saving a folder's files in order on a case-insensitive disk (client/src/folderDelivery.ts),
    starting from the empty directory the recipient chose, when no name has to be rewritten. */
module FolderTree {
  import opened Basics
  import opened Manifest

  /** `handles` counts the entries that were handed this file: creating an existing file opens it. */
  datatype Node = Directory | Leaf(handles: nat)

  /** Case-blind paths below the chosen directory. */
  type Nodes = map<Key, Node>

  predicate IsLeaf(nodes: Nodes, k: Key) { k in nodes && nodes[k].Leaf? }

  predicate IsDirectory(nodes: Nodes, k: Key) { k in nodes && nodes[k].Directory? }

  ghost predicate IsAncestor(k: Key, keys: seq<Key>) {
    k != [] && exists i :: 0 <= i < |keys| && k < keys[i]
  }

  /** The tree of the files saved so far: their leaves, the directories above them, nothing else. */
  ghost predicate IsTree(nodes: Nodes, keys: seq<Key>) {
    && (forall k :: IsLeaf(nodes, k) <==> k in keys)
    && (forall k :: IsDirectory(nodes, k) <==> IsAncestor(k, keys))
    && (forall k :: k in keys ==> IsLeaf(nodes, k) && nodes[k].handles == multiset(keys)[k])
  }

  predicate IsOnTheWay(k: Key, key: Key, m: nat)
    requires m <= |key|
  {
    k != [] && k <= key[..m]
  }

  /** The same, on the way to `key`: the directories of its first `m` segments are there too. */
  ghost predicate IsTreeWithin(nodes: Nodes, keys: seq<Key>, key: Key, m: nat)
    requires m <= |key|
  {
    && (forall k :: IsLeaf(nodes, k) <==> k in keys)
    && (forall k :: IsDirectory(nodes, k) <==> IsAncestor(k, keys) || IsOnTheWay(k, key, m))
    && (forall k :: k in keys ==> IsLeaf(nodes, k) && nodes[k].handles == multiset(keys)[k])
  }

  ghost predicate Unnested(keys: seq<Key>) {
    forall i, j :: 0 <= i < |keys| && 0 <= j < |keys| ==> !(keys[i] < keys[j])
  }

  /** A new file clashes when a file bars its way, or when it is itself a directory. */
  ghost predicate Clashes(keys: seq<Key>, key: Key) {
    exists i :: 0 <= i < |keys| && (keys[i] < key || key < keys[i])
  }

  lemma UnnestedOneMore(keys: seq<Key>, n: nat)
    requires n < |keys| && Unnested(keys[..n])
    ensures Unnested(keys[..n + 1]) <==> !Clashes(keys[..n], keys[n])
  {
    var before, after := keys[..n], keys[..n + 1];
    if Clashes(before, keys[n]) {
      var i :| 0 <= i < |before| && (before[i] < keys[n] || keys[n] < before[i]);
      assert after[i] == before[i] && after[n] == keys[n];
    } else {
      forall i, j | 0 <= i < |after| && 0 <= j < |after| ensures !(after[i] < after[j]) {
        assert i < n ==> after[i] == before[i];
        assert j < n ==> after[j] == before[j];
      }
    }
  }

  lemma NestedStaysNested(keys: seq<Key>, n: nat)
    requires n <= |keys| && !Unnested(keys[..n])
    ensures !Unnested(keys)
  {
    var i, j :| 0 <= i < n && 0 <= j < n && keys[..n][i] < keys[..n][j];
    assert keys[i] < keys[j];
  }

  class Disk {
    var nodes: Nodes

    /** The freshly chosen directory is empty. */
    constructor ()
      ensures nodes == map[]
    {
      nodes := map[];
    }

    /** A directory of that name, made if there is none; a file of that name refuses. */
    method ChildDir(parent: Key, name: Text) returns (ok: bool)
      modifies this
      ensures ok == !IsLeaf(old(nodes), parent + [name])
      ensures nodes == if ok then old(nodes)[parent + [name] := Directory] else old(nodes)
    {
      var key := parent + [name];
      ok := key !in nodes || nodes[key].Directory?;
      if key !in nodes {
        nodes := nodes[key := Directory];
      }
    }

    /** A file of that name, made or opened; a directory of that name refuses. */
    method ChildFile(parent: Key, name: Text) returns (ok: bool)
      modifies this
      ensures ok == !IsDirectory(old(nodes), parent + [name])
      ensures nodes == if ok then old(nodes)[parent + [name] :=
                Leaf(if IsLeaf(old(nodes), parent + [name]) then old(nodes)[parent + [name]].handles + 1 else 1)] else old(nodes)
    {
      var key := parent + [name];
      if key in nodes && nodes[key].Directory? {
        return false;
      }
      nodes := nodes[key := Leaf(if key in nodes then nodes[key].handles + 1 else 1)];
      return true;
    }

    /** One file into its place in the tree. */
    method SaveOne(key: Key, ghost keys: seq<Key>) returns (ok: bool)
      requires key != [] && IsTree(nodes, keys) && forall i :: 0 <= i < |keys| ==> keys[i] != []
      modifies this
      ensures ok <==> !Clashes(keys, key)
      ensures ok ==> IsTree(nodes, keys + [key])
    {
      var m := 0;
      while m < |key| - 1
        invariant 0 <= m < |key|
        invariant IsTreeWithin(nodes, keys, key, m)
        invariant forall i :: 0 <= i < |keys| ==> !(keys[i] <= key[..m])
        decreases |key| - m
      {
        StepDown(nodes, keys, key, m);
        ok := ChildDir(key[..m], key[m]);
        if !ok {
          return;
        }
        m := m + 1;
      }
      Arrive(nodes, keys, key);
      ok := ChildFile(key[..m], key[m]);
    }

    /** Every wanted file in order, stopping at the first one that cannot be made. */
    method SaveAll(keys: seq<Key>) returns (ok: bool)
      requires nodes == map[] && forall i :: 0 <= i < |keys| ==> keys[i] != []
      modifies this
      ensures ok <==> Unnested(keys)
      ensures ok ==> IsTree(nodes, keys)
    {
      var n := 0;
      while n < |keys|
        invariant n <= |keys| && Unnested(keys[..n]) && IsTree(nodes, keys[..n])
      {
        UnnestedOneMore(keys, n);
        ok := SaveOne(keys[n], keys[..n]);
        if !ok {
          NestedStaysNested(keys, n + 1);
          return;
        }
        assert keys[..n] + [keys[n]] == keys[..n + 1];
        n := n + 1;
      }
      assert keys[..n] == keys;
      ok := true;
    }
  }

  lemma StepDown(nodes: Nodes, keys: seq<Key>, key: Key, m: nat)
    requires m < |key| - 1 && IsTreeWithin(nodes, keys, key, m)
    requires forall i :: 0 <= i < |keys| ==> !(keys[i] <= key[..m])
    ensures key[..m] + [key[m]] == key[..m + 1]
    ensures IsLeaf(nodes, key[..m + 1]) ==> Clashes(keys, key)
    ensures !IsLeaf(nodes, key[..m + 1]) ==>
              && IsTreeWithin(nodes[key[..m + 1] := Directory], keys, key, m + 1)
              && forall i :: 0 <= i < |keys| ==> !(keys[i] <= key[..m + 1])
  {
    var dir := key[..m + 1];
    assert key[..m] + [key[m]] == dir;
    forall k ensures IsOnTheWay(k, key, m + 1) <==> IsOnTheWay(k, key, m) || k == dir {
      PrefixOfOneMore(k, key, m);
    }
    forall i | 0 <= i < |keys| && keys[i] != dir ensures !(keys[i] <= dir) {
      PrefixOfOneMore(keys[i], key, m);
    }
    if IsLeaf(nodes, dir) {
      var i :| 0 <= i < |keys| && keys[i] == dir;
      assert keys[i] < key;
    } else {
      var after := nodes[dir := Directory];
      assert forall k :: IsLeaf(after, k) <==> k in keys;
      forall k ensures IsDirectory(after, k) <==> IsAncestor(k, keys) || IsOnTheWay(k, key, m + 1) {
        assert IsDirectory(nodes, k) <==> IsAncestor(k, keys) || IsOnTheWay(k, key, m);
      }
    }
  }

  lemma PrefixOfOneMore(k: Key, key: Key, m: nat)
    requires m < |key|
    ensures k <= key[..m + 1] <==> k <= key[..m] || k == key[..m + 1]
  {
    if k <= key[..m + 1] && |k| <= m {
      assert k == key[..m + 1][..|k|] == key[..m][..|k|];
    }
  }

  lemma Arrive(nodes: Nodes, keys: seq<Key>, key: Key)
    requires key != [] && IsTreeWithin(nodes, keys, key, |key| - 1)
    requires forall i :: 0 <= i < |keys| ==> !(keys[i] <= key[..|key| - 1])
    ensures key[..|key| - 1] + [key[|key| - 1]] == key
    ensures IsDirectory(nodes, key) <==> Clashes(keys, key)
    ensures !IsDirectory(nodes, key) ==>
              IsTree(nodes[key := Leaf(if IsLeaf(nodes, key) then nodes[key].handles + 1 else 1)], keys + [key])
  {
    var n := |key| - 1;
    PrefixOfOneMore(key, key, n);
    forall i | 0 <= i < |keys| ensures !(keys[i] < key) {
      PrefixOfOneMore(keys[i], key, n);
    }
    if !IsDirectory(nodes, key) {
      var after, more := nodes[key := Leaf(if IsLeaf(nodes, key) then nodes[key].handles + 1 else 1)], keys + [key];
      forall k ensures IsAncestor(k, more) <==> IsAncestor(k, keys) || IsOnTheWay(k, key, n) {
        AncestorOfOneMore(k, keys, key);
      }
      assert forall k :: k in more <==> k in keys || k == key;
      assert multiset(more) == multiset(keys) + multiset{key};
    }
  }

  lemma AncestorOfOneMore(k: Key, keys: seq<Key>, key: Key)
    requires key != []
    ensures IsAncestor(k, keys + [key]) <==> IsAncestor(k, keys) || IsOnTheWay(k, key, |key| - 1)
  {
    var more := keys + [key];
    PrefixOfOneMore(k, key, |key| - 1);
    assert key[..|key| - 1 + 1] == key && more[|keys|] == key;
    if IsAncestor(k, keys) {
      var i :| 0 <= i < |keys| && k < keys[i];
      assert more[i] == keys[i];
    }
  }

  /** Each file of a tree has its own leaf exactly when no two names are the same. */
  lemma OwnLeafIffDistinct(nodes: Nodes, keys: seq<Key>)
    requires IsTree(nodes, keys)
    ensures (forall k :: IsLeaf(nodes, k) ==> nodes[k].handles == 1) <==>
            (forall i, j :: 0 <= i < j < |keys| ==> keys[i] != keys[j])
  {
    if forall i, j :: 0 <= i < j < |keys| ==> keys[i] != keys[j] {
      forall k | IsLeaf(nodes, k) ensures multiset(keys)[k] == 1 {
        CountsOnce(keys, k);
      }
    } else {
      var i, j :| 0 <= i < j < |keys| && keys[i] == keys[j];
      CountsTwice(keys, i, j);
      assert IsLeaf(nodes, keys[i]);
    }
  }

  lemma {:induction false} CountsOnce(keys: seq<Key>, k: Key)
    requires k in keys && forall i, j :: 0 <= i < j < |keys| ==> keys[i] != keys[j]
    ensures multiset(keys)[k] == 1
  {
    assert keys == DropLast(keys) + [Last(keys)];
    if k in DropLast(keys) {
      CountsOnce(DropLast(keys), k);
    }
  }

  lemma CountsTwice(keys: seq<Key>, i: nat, j: nat)
    requires i < j < |keys| && keys[i] == keys[j]
    ensures multiset(keys)[keys[i]] >= 2
  {
    assert keys == keys[..j] + [keys[j]] + keys[j + 1..];
    assert keys[..j][i] == keys[i];
  }

  /** Saving the files of an accepted manifest: nothing clashes, and entries and leaves match one
      to one. For any other list of names one of the two fails. */
  lemma SeparateIffSavedApart(nodes: Nodes, keys: seq<Key>)
    requires Unnested(keys) ==> IsTree(nodes, keys)
    ensures Separate(keys) <==>
            Unnested(keys) && (forall k :: IsLeaf(nodes, k) ==> nodes[k].handles == 1)
  {
    if Unnested(keys) {
      OwnLeafIffDistinct(nodes, keys);
    }
    if Separate(keys) {
      forall i, j | 0 <= i < |keys| && 0 <= j < |keys| ensures !(keys[i] < keys[j]) {
        assert i < j || j < i || i == j;
      }
    }
  }

  /** The folder a recipient saves: from the raw manifest to the disk. */
  method SaveManifest(limits: Limits, lower: Text -> Text, raw: seq<Item>) returns (saved: bool, disk: Disk)
    requires KeepsSlashes(lower)
    ensures IsAcceptable(limits, lower, raw) ==>
              && saved && IsTree(disk.nodes, Keys(lower, raw))
              && forall k :: IsLeaf(disk.nodes, k) ==> disk.nodes[k].handles == 1
  {
    disk := new Disk();
    var r := Validate(limits, lower, raw);
    if r.Refused? {
      return false, disk;
    }
    saved := disk.SaveAll(Keys(lower, raw));
    SeparateIffSavedApart(disk.nodes, Keys(lower, raw));
  }
}
