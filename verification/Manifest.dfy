/** The declared manifest of a folder (gateway/src/folders.ts): which lists of paths and sizes the
    gateway accepts. Text is a sequence of UTF-16 code units, already NFKC-normalised. */
module Manifest {
  import opened Basics

  newtype CodeUnit = x: int | 0 <= x < 0x1_0000

  type Text = seq<CodeUnit>

  /** A path as its segments. */
  type Key = seq<Text>

  const SLASH: CodeUnit := 47
  const BACKSLASH: CodeUnit := 92
  const DOT: CodeUnit := 46

  const MAX_FOLDER_DEPTH := 32
  const MAX_RELATIVE_PATH_LENGTH := 1024
  const MAX_FILENAME_LENGTH := 200

  datatype Limits = Limits(maxFiles: nat, maxFileBytes: nat, maxFolderBytes: nat)

  /** A raw entry: a path that is not a string and a size that is no integer are `None`. */
  datatype Item = Item(path: Option<Text>, size: Option<int>)

  datatype Entry = Entry(path: Text, size: nat)

  datatype Code = EmptyFolder | TooManyFiles | BadPath | BadSize | TooLarge | DuplicatePath

  datatype Result = Accepted(files: seq<Entry>, totalBytes: nat) | Refused(code: Code)

  // ───────── segments and paths ─────────

  predicate IsControl(c: CodeUnit) { c <= 0x1f || c == 0x7f }

  /** White space and line terminators, as `String.prototype.trim` takes them. */
  predicate IsSpace(c: CodeUnit) {
    || 9 <= c <= 13 || c == 32 || c == 0xa0 || c == 0x1680 || 0x2000 <= c <= 0x200a
    || c == 0x2028 || c == 0x2029 || c == 0x202f || c == 0x205f || c == 0x3000 || c == 0xfeff
  }

  predicate IsBlank(s: Text) { forall c :: c in s ==> IsSpace(c) }

  predicate IsTrimmed(s: Text) { s != [] ==> !IsSpace(s[0]) && !IsSpace(Last(s)) }

  predicate SegmentIsValid(seg: Text) {
    && seg != [] && seg != [DOT]
    && (forall i :: 0 <= i < |seg| - 1 ==> !(seg[i] == DOT && seg[i + 1] == DOT))
    && (forall i :: 0 <= i < |seg| ==> seg[i] != BACKSLASH && !IsControl(seg[i]))
    && |seg| <= MAX_FILENAME_LENGTH
    && IsTrimmed(seg)
  }

  predicate HasNoSlash(s: Text) { SLASH !in s }

  function Join(segs: Key): Text
    requires segs != []
  {
    if |segs| == 1 then segs[0] else segs[0] + [SLASH] + Join(segs[1..])
  }

  /** Where the first segment ends. */
  function FirstSlash(s: Text): (n: nat)
    ensures n <= |s| && HasNoSlash(s[..n])
    ensures n < |s| ==> s[n] == SLASH
  {
    if s == [] || s[0] == SLASH then 0
    else
      assert s[..1 + FirstSlash(s[1..])] == [s[0]] + s[1..][..FirstSlash(s[1..])];
      1 + FirstSlash(s[1..])
  }

  lemma JoinOfCons(seg: Text, segs: Key)
    requires segs != []
    ensures Join([seg] + segs) == seg + [SLASH] + Join(segs)
  {
    assert ([seg] + segs)[1..] == segs;
  }

  function Split(s: Text): (segs: Key)
    ensures segs != [] && forall i :: 0 <= i < |segs| ==> HasNoSlash(segs[i])
    ensures Join(segs) == s
    decreases |s|
  {
    var n := FirstSlash(s);
    if n == |s| then [s]
    else
      var rest := Split(s[n + 1..]);
      JoinOfCons(s[..n], rest);
      assert s == s[..n] + [SLASH] + s[n + 1..];
      [s[..n]] + rest
  }

  ghost predicate AllSlashFree(segs: Key) { forall i :: 0 <= i < |segs| ==> HasNoSlash(segs[i]) }

  lemma {:induction false} FirstSlashIsUnique(a: Text, rest: Text)
    requires HasNoSlash(a) && (rest != [] ==> rest[0] == SLASH)
    ensures FirstSlash(a + rest) == |a|
    decreases |a|
  {
    if a == [] {
      assert a + rest == rest;
    } else {
      assert (a + rest)[1..] == a[1..] + rest;
      FirstSlashIsUnique(a[1..], rest);
    }
  }

  lemma SplitOfCons(seg: Text, rest: Text)
    requires HasNoSlash(seg)
    ensures Split(seg + [SLASH] + rest) == [seg] + Split(rest)
  {
    var s := seg + ([SLASH] + rest);
    FirstSlashIsUnique(seg, [SLASH] + rest);
    assert seg + [SLASH] + rest == s;
    assert s[..|seg|] == seg && s[|seg| + 1..] == rest;
  }

  lemma {:induction false} SplitOfJoin(segs: Key)
    requires segs != [] && AllSlashFree(segs)
    ensures Split(Join(segs)) == segs
    decreases |segs|
  {
    if |segs| == 1 {
      FirstSlashIsUnique(segs[0], []);
      assert segs[0] + [] == segs[0];
    } else {
      SplitOfCons(segs[0], Join(segs[1..]));
      SplitOfJoin(segs[1..]);
    }
  }

  /** Joined paths name their segments. */
  lemma JoinIsInjective(a: Key, b: Key)
    requires a != [] && b != [] && AllSlashFree(a) && AllSlashFree(b)
    ensures Join(a) == Join(b) <==> a == b
  {
    SplitOfJoin(a);
    SplitOfJoin(b);
  }

  predicate PathIsValid(path: Option<Text>) {
    && path.Some? && !IsBlank(path.value)
    && |path.value| <= MAX_RELATIVE_PATH_LENGTH
    && path.value[0] != SLASH
    && |Split(path.value)| <= MAX_FOLDER_DEPTH
    && forall i :: 0 <= i < |Split(path.value)| ==> SegmentIsValid(Split(path.value)[i])
  }

  /** The sender's own check (client/src/folders.ts), which has no rule about blank paths. */
  predicate ClientAccepts(path: Text) {
    && path != [] && |path| <= MAX_RELATIVE_PATH_LENGTH && path[0] != SLASH
    && |Split(path)| <= MAX_FOLDER_DEPTH
    && forall i :: 0 <= i < |Split(path)| ==> SegmentIsValid(Split(path)[i])
  }

  /** Client and gateway accept the same paths. */
  lemma ClientAgreesWithGateway(path: Text)
    ensures ClientAccepts(path) <==> PathIsValid(Some(path))
  {
    if ClientAccepts(path) {
      var first := Split(path)[0];
      assert SegmentIsValid(first) && first == path[..FirstSlash(path)];
      assert !IsSpace(first[0]) && first[0] == path[0];
    }
  }

  // ───────── lower-casing ─────────

  /** Lower-casing works segment by segment and never touches a slash. */
  ghost predicate KeepsSlashes(lower: Text -> Text) {
    forall s :: HasNoSlash(s) ==> HasNoSlash(lower(s))
  }

  function Lowered(lower: Text -> Text, segs: Key): (key: Key)
    ensures |key| == |segs|
  {
    seq(|segs|, i requires 0 <= i < |segs| => lower(segs[i]))
  }

  /** The case-blind segments of an entry's path. */
  function KeyOf(lower: Text -> Text, item: Item): (key: Key)
    ensures key != []
  {
    Lowered(lower, if item.path.Some? then Split(item.path.value) else [[]])
  }

  lemma KeyIsSlashFree(lower: Text -> Text, item: Item)
    requires KeepsSlashes(lower)
    ensures AllSlashFree(KeyOf(lower, item))
  {
    assert HasNoSlash([]);
  }

  // ───────── the specification ─────────

  /** No two paths are the same, and no file lies where another needs a directory. */
  ghost predicate Separate(keys: seq<Key>) {
    forall i, j :: 0 <= i < j < |keys| ==> keys[i] != keys[j] && !(keys[i] < keys[j]) && !(keys[j] < keys[i])
  }

  predicate ItemIsValid(limits: Limits, item: Item) {
    PathIsValid(item.path) && item.size.Some? && 0 < item.size.value <= limits.maxFileBytes
  }

  function Keys(lower: Text -> Text, raw: seq<Item>): (keys: seq<Key>)
    ensures |keys| == |raw| && forall i :: 0 <= i < |raw| ==> keys[i] == KeyOf(lower, raw[i])
  {
    seq(|raw|, i requires 0 <= i < |raw| => KeyOf(lower, raw[i]))
  }

  ghost function Total(raw: seq<Item>): int {
    if raw == [] then 0
    else Total(DropLast(raw)) + (if Last(raw).size.Some? then Last(raw).size.value else 0)
  }

  /** What the recipient's disk can hold as declared, within the deployment's limits. */
  ghost predicate IsAcceptable(limits: Limits, lower: Text -> Text, raw: seq<Item>) {
    && 0 < |raw| <= limits.maxFiles
    && (forall i :: 0 <= i < |raw| ==> ItemIsValid(limits, raw[i]))
    && Separate(Keys(lower, raw))
    && Total(raw) <= limits.maxFolderBytes
  }

  /** The path is taken by an earlier file, or by a directory on the way to one. */
  ghost predicate IsUsed(keys: seq<Key>, k: nat)
    requires k < |keys|
  {
    exists j :: 0 <= j < k && (keys[k] == keys[j] || keys[k] < keys[j])
  }

  /** Why entry `k` is refused when the entries before it passed. */
  ghost function ItemFault(limits: Limits, lower: Text -> Text, raw: seq<Item>, k: nat): Option<Code>
    requires k < |raw|
  {
    if !PathIsValid(raw[k].path) then Some(BadPath)
    else if raw[k].size.None? || raw[k].size.value <= 0 then Some(BadSize)
    else if raw[k].size.value > limits.maxFileBytes then Some(TooLarge)
    else if IsUsed(Keys(lower, raw), k) then Some(DuplicatePath)
    else None
  }

  ghost predicate PassTo(limits: Limits, lower: Text -> Text, raw: seq<Item>, k: nat) {
    k <= |raw| && forall i :: 0 <= i < k ==> ItemFault(limits, lower, raw, i) == None
  }

  ghost predicate HasFileAsDirectory(keys: seq<Key>) {
    exists i, j :: 0 <= i < |keys| && 0 <= j < |keys| && keys[i] < keys[j]
  }

  /** The one code a refused manifest gets: the first check that fails, in the order of the source. */
  ghost predicate IsRefusedFor(limits: Limits, lower: Text -> Text, raw: seq<Item>, code: Code) {
    if raw == [] then code == EmptyFolder
    else if |raw| > limits.maxFiles then code == TooManyFiles
    else
      || (exists k :: 0 <= k < |raw| && PassTo(limits, lower, raw, k) && ItemFault(limits, lower, raw, k) == Some(code))
      || (PassTo(limits, lower, raw, |raw|) &&
          if HasFileAsDirectory(Keys(lower, raw)) then code == DuplicatePath
          else Total(raw) > limits.maxFolderBytes && code == TooLarge)
  }

  lemma SeparateIffUnused(keys: seq<Key>)
    ensures Separate(keys) <==> (forall k :: 0 <= k < |keys| ==> !IsUsed(keys, k)) && !HasFileAsDirectory(keys)
  {
    if Separate(keys) {
      forall k | 0 <= k < |keys| ensures !IsUsed(keys, k) {
        forall j | 0 <= j < k ensures keys[k] != keys[j] && !(keys[k] < keys[j]) {}
      }
      forall i, j | 0 <= i < |keys| && 0 <= j < |keys| ensures !(keys[i] < keys[j]) {
        assert i < j || j < i || i == j;
      }
    } else {
      var i, j :| 0 <= i < j < |keys| && (keys[i] == keys[j] || keys[i] < keys[j] || keys[j] < keys[i]);
      assert keys[i] == keys[j] ==> IsUsed(keys, j);
    }
  }

  ghost predicate Passes(limits: Limits, lower: Text -> Text, raw: seq<Item>) {
    && 0 < |raw| <= limits.maxFiles && PassTo(limits, lower, raw, |raw|)
    && !HasFileAsDirectory(Keys(lower, raw)) && Total(raw) <= limits.maxFolderBytes
  }

  lemma AcceptableIffPasses(limits: Limits, lower: Text -> Text, raw: seq<Item>)
    ensures IsAcceptable(limits, lower, raw) <==> Passes(limits, lower, raw)
  {
    SeparateIffUnused(Keys(lower, raw));
    if IsAcceptable(limits, lower, raw) {
      forall k | 0 <= k < |raw| ensures ItemFault(limits, lower, raw, k) == None {
        assert ItemIsValid(limits, raw[k]) && !IsUsed(Keys(lower, raw), k);
      }
    }
    if Passes(limits, lower, raw) {
      forall k | 0 <= k < |raw| ensures ItemIsValid(limits, raw[k]) && !IsUsed(Keys(lower, raw), k) {
        assert ItemFault(limits, lower, raw, k) == None;
      }
    }
  }

  /** A manifest is acceptable exactly when no code refuses it. */
  lemma AcceptableIffNotRefused(limits: Limits, lower: Text -> Text, raw: seq<Item>)
    ensures IsAcceptable(limits, lower, raw) <==> !exists code :: IsRefusedFor(limits, lower, raw, code)
  {
    AcceptableIffPasses(limits, lower, raw);
    if Passes(limits, lower, raw) {
      forall code ensures !IsRefusedFor(limits, lower, raw, code) {
        assert forall k :: 0 <= k < |raw| ==> ItemFault(limits, lower, raw, k) == None;
      }
    } else {
      var code := RefusalCode(limits, lower, raw);
    }
  }

  lemma RefusalCode(limits: Limits, lower: Text -> Text, raw: seq<Item>) returns (code: Code)
    requires !Passes(limits, lower, raw)
    ensures IsRefusedFor(limits, lower, raw, code)
  {
    if raw == [] {
      code := EmptyFolder;
    } else if |raw| > limits.maxFiles {
      code := TooManyFiles;
    } else if !PassTo(limits, lower, raw, |raw|) {
      var k := FirstFault(limits, lower, raw, |raw|);
      code := ItemFault(limits, lower, raw, k).value;
    } else {
      code := if HasFileAsDirectory(Keys(lower, raw)) then DuplicatePath else TooLarge;
    }
  }

  lemma {:induction false} FirstFault(limits: Limits, lower: Text -> Text, raw: seq<Item>, n: nat) returns (k: nat)
    requires n <= |raw| && !PassTo(limits, lower, raw, n)
    ensures k < n && PassTo(limits, lower, raw, k) && ItemFault(limits, lower, raw, k).Some?
    decreases n
  {
    if PassTo(limits, lower, raw, n - 1) {
      k := n - 1;
    } else {
      k := FirstFault(limits, lower, raw, n - 1);
    }
  }

  // ───────── the check itself, over sets of joined names ─────────

  ghost predicate IsFileName(x: Text, keys: seq<Key>, n: nat)
    requires n <= |keys| && forall i :: 0 <= i < |keys| ==> keys[i] != []
  {
    exists j :: 0 <= j < n && x == Join(keys[j])
  }

  /** `x` names one of the first `n - 1` directories on the way to `key`. */
  ghost predicate IsAncestorName(x: Text, key: Key, n: nat)
    requires n <= |key|
  {
    exists m :: 0 < m < n && x == Join(key[..m])
  }

  ghost predicate IsDirName(x: Text, keys: seq<Key>, n: nat)
    requires n <= |keys|
  {
    exists j :: 0 <= j < n && IsAncestorName(x, keys[j], |keys[j]|)
  }

  ghost predicate AreKeys(keys: seq<Key>) {
    forall i :: 0 <= i < |keys| ==> keys[i] != [] && AllSlashFree(keys[i])
  }

  lemma AncestorByName(a: Key, b: Key)
    requires a != [] && b != [] && AllSlashFree(a) && AllSlashFree(b)
    ensures IsAncestorName(Join(a), b, |b|) <==> a < b
  {
    forall m | 0 < m < |b| ensures Join(a) == Join(b[..m]) <==> a == b[..m] {
      JoinIsInjective(a, b[..m]);
    }
    if a < b {
      assert a == b[..|a|];
    }
  }

  lemma UsedByName(keys: seq<Key>, k: nat)
    requires k < |keys| && AreKeys(keys)
    ensures IsFileName(Join(keys[k]), keys, k) || IsDirName(Join(keys[k]), keys, k) <==> IsUsed(keys, k)
  {
    forall j | 0 <= j < k ensures
      && (Join(keys[k]) == Join(keys[j]) <==> keys[k] == keys[j])
      && (IsAncestorName(Join(keys[k]), keys[j], |keys[j]|) <==> keys[k] < keys[j])
    {
      JoinIsInjective(keys[k], keys[j]);
      AncestorByName(keys[k], keys[j]);
    }
  }

  lemma FileAsDirectoryByName(keys: seq<Key>)
    requires AreKeys(keys)
    ensures HasFileAsDirectory(keys) <==> exists x :: IsDirName(x, keys, |keys|) && IsFileName(x, keys, |keys|)
  {
    forall i, j | 0 <= i < |keys| && 0 <= j < |keys|
      ensures IsAncestorName(Join(keys[i]), keys[j], |keys[j]|) <==> keys[i] < keys[j]
    {
      AncestorByName(keys[i], keys[j]);
    }
    if HasFileAsDirectory(keys) {
      var i, j :| 0 <= i < |keys| && 0 <= j < |keys| && keys[i] < keys[j];
      assert IsDirName(Join(keys[i]), keys, |keys|) && IsFileName(Join(keys[i]), keys, |keys|);
    }
  }

  lemma LoweredPrefix(lower: Text -> Text, segs: Key, m: nat)
    requires m <= |segs|
    ensures Lowered(lower, segs[..m]) == Lowered(lower, segs)[..m]
  {
  }

  /** The names of the directories on the way to a file. */
  method AddDirectories(lower: Text -> Text, dirs: set<Text>, segs: Key) returns (all: set<Text>)
    requires segs != []
    ensures forall x :: x in all <==> x in dirs || IsAncestorName(x, Lowered(lower, segs), |segs|)
  {
    all := dirs;
    var m := 1;
    while m < |segs|
      invariant 1 <= m <= |segs|
      invariant forall x :: x in all <==> x in dirs || IsAncestorName(x, Lowered(lower, segs), m)
    {
      LoweredPrefix(lower, segs, m);
      ghost var before := all;
      all := all + {Join(Lowered(lower, segs[..m]))};
      forall x ensures x in all <==> x in dirs || IsAncestorName(x, Lowered(lower, segs), m + 1) {
        if IsAncestorName(x, Lowered(lower, segs), m + 1) {
          assert x in before || x == Join(Lowered(lower, segs)[..m]);
        }
        if x == Join(Lowered(lower, segs)[..m]) {
          assert IsAncestorName(x, Lowered(lower, segs), m + 1);
        }
      }
      m := m + 1;
    }
  }

  method Intersects(dirs: set<Text>, seen: set<Text>) returns (shared: bool)
    ensures shared <==> exists x :: x in dirs && x in seen
  {
    var todo := dirs;
    while todo != {}
      invariant todo <= dirs
      invariant forall x :: x in dirs && x !in todo ==> x !in seen
      decreases |todo|
    {
      var d :| d in todo;
      if d in seen {
        return true;
      }
      todo := todo - {d};
    }
    return false;
  }

  /** The two sets hold the case-blind names of the first `n` files and of their directories. */
  ghost predicate NamesTo(seen: set<Text>, dirs: set<Text>, keys: seq<Key>, n: nat)
    requires n <= |keys| && AreKeys(keys)
  {
    && (forall x :: x in seen <==> IsFileName(x, keys, n))
    && (forall x :: x in dirs <==> IsDirName(x, keys, n))
  }

  lemma NamesOfOneMore(seen: set<Text>, dirs: set<Text>, more: set<Text>, keys: seq<Key>, n: nat)
    requires n < |keys| && AreKeys(keys) && NamesTo(seen, dirs, keys, n)
    requires forall x :: x in more <==> x in dirs || IsAncestorName(x, keys[n], |keys[n]|)
    ensures NamesTo(seen + {Join(keys[n])}, more, keys, n + 1)
  {
    forall x ensures IsFileName(x, keys, n + 1) <==> IsFileName(x, keys, n) || x == Join(keys[n]) {
      assert x == Join(keys[n]) ==> IsFileName(x, keys, n + 1);
    }
    forall x ensures IsDirName(x, keys, n + 1) <==> IsDirName(x, keys, n) || IsAncestorName(x, keys[n], |keys[n]|) {
      assert IsAncestorName(x, keys[n], |keys[n]|) ==> IsDirName(x, keys, n + 1);
    }
  }

  /** One turn of the loop: the entry's fault, or the sets with its names added. */
  method Admit(limits: Limits, lower: Text -> Text, ghost raw: seq<Item>, ghost i: nat, item: Item, seen: set<Text>, dirs: set<Text>)
    returns (fault: Option<Code>, seen': set<Text>, dirs': set<Text>)
    requires i < |raw| && item == raw[i] && AreKeys(Keys(lower, raw)) && NamesTo(seen, dirs, Keys(lower, raw), i)
    ensures fault == ItemFault(limits, lower, raw, i)
    ensures fault.None? ==> ItemIsValid(limits, item) && NamesTo(seen', dirs', Keys(lower, raw), i + 1)
  {
    seen', dirs' := seen, dirs;
    if !PathIsValid(item.path) {
      return Some(BadPath), seen, dirs;
    }
    if item.size.None? || item.size.value <= 0 {
      return Some(BadSize), seen, dirs;
    }
    if item.size.value > limits.maxFileBytes {
      return Some(TooLarge), seen, dirs;
    }
    var key := Join(KeyOf(lower, item));
    UsedByName(Keys(lower, raw), i);
    if key in seen || key in dirs {
      return Some(DuplicatePath), seen, dirs;
    }
    seen' := seen + {key};
    dirs' := AddDirectories(lower, dirs, Split(item.path.value));
    NamesOfOneMore(seen, dirs, dirs', Keys(lower, raw), i);
    fault := None;
  }

  lemma RefusedAt(limits: Limits, lower: Text -> Text, raw: seq<Item>, i: nat)
    requires 0 < |raw| <= limits.maxFiles && i < |raw| && PassTo(limits, lower, raw, i)
    requires ItemFault(limits, lower, raw, i).Some?
    ensures IsRefusedFor(limits, lower, raw, ItemFault(limits, lower, raw, i).value) && !IsAcceptable(limits, lower, raw)
  {
    AcceptableIffNotRefused(limits, lower, raw);
  }

  lemma NestedByName(seen: set<Text>, dirs: set<Text>, keys: seq<Key>)
    requires AreKeys(keys) && NamesTo(seen, dirs, keys, |keys|)
    ensures HasFileAsDirectory(keys) <==> exists x :: x in dirs && x in seen
  {
    FileAsDirectoryByName(keys);
  }

  ghost predicate CopiedTo(raw: seq<Item>, files: seq<Entry>, n: nat) {
    n <= |raw| && |files| == n && forall j :: 0 <= j < n ==> raw[j] == Item(Some(files[j].path), Some(files[j].size))
  }

  lemma PassOneMore(limits: Limits, lower: Text -> Text, raw: seq<Item>, i: nat)
    requires i < |raw| && PassTo(limits, lower, raw, i) && ItemFault(limits, lower, raw, i) == None
    ensures PassTo(limits, lower, raw, i + 1)
  {
  }

  /** The loop over the entries. */
  method Scan(limits: Limits, lower: Text -> Text, raw: seq<Item>)
    returns (fault: Option<Code>, files: seq<Entry>, totalBytes: nat, seen: set<Text>, dirs: set<Text>)
    requires AreKeys(Keys(lower, raw)) && 0 < |raw| <= limits.maxFiles
    ensures fault.Some? ==> IsRefusedFor(limits, lower, raw, fault.value) && !IsAcceptable(limits, lower, raw)
    ensures fault.None? ==>
              && PassTo(limits, lower, raw, |raw|) && NamesTo(seen, dirs, Keys(lower, raw), |raw|)
              && CopiedTo(raw, files, |raw|) && totalBytes == Total(raw)
  {
    fault, files, totalBytes, seen, dirs := None, [], 0, {}, {};
    var i := 0;
    while i < |raw|
      invariant i <= |raw| && PassTo(limits, lower, raw, i)
      invariant NamesTo(seen, dirs, Keys(lower, raw), i)
      invariant CopiedTo(raw, files, i) && totalBytes == Total(raw[..i])
    {
      var item := raw[i];
      fault, seen, dirs := Admit(limits, lower, raw, i, item, seen, dirs);
      if fault.Some? {
        RefusedAt(limits, lower, raw, i);
        return;
      }
      PassOneMore(limits, lower, raw, i);
      TotalOfOneMore(raw, i);
      totalBytes := totalBytes + item.size.value;
      files := files + [Entry(item.path.value, item.size.value)];
      i := i + 1;
    }
    assert raw[..i] == raw;
    fault := None;
  }

  /** Accepts exactly the acceptable manifests, and returns them unchanged. */
  method Validate(limits: Limits, lower: Text -> Text, raw: seq<Item>) returns (r: Result)
    requires KeepsSlashes(lower)
    ensures r.Accepted? <==> IsAcceptable(limits, lower, raw)
    ensures r.Accepted? ==> CopiedTo(raw, r.files, |raw|) && r.totalBytes == Total(raw)
    ensures r.Refused? ==> IsRefusedFor(limits, lower, raw, r.code)
  {
    if |raw| == 0 {
      return Refused(EmptyFolder);
    }
    if |raw| > limits.maxFiles {
      return Refused(TooManyFiles);
    }
    KeysAreKeys(lower, raw);
    var fault, files, totalBytes, seen, dirs := Scan(limits, lower, raw);
    if fault.Some? {
      return Refused(fault.value);
    }
    AcceptableIffPasses(limits, lower, raw);
    NestedByName(seen, dirs, Keys(lower, raw));
    var nested := Intersects(dirs, seen);
    if nested {
      return Refused(DuplicatePath);
    }
    if totalBytes > limits.maxFolderBytes {
      return Refused(TooLarge);
    }
    return Accepted(files, totalBytes);
  }

  lemma KeysAreKeys(lower: Text -> Text, raw: seq<Item>)
    requires KeepsSlashes(lower)
    ensures AreKeys(Keys(lower, raw))
  {
    forall i | 0 <= i < |raw| ensures AllSlashFree(Keys(lower, raw)[i]) {
      KeyIsSlashFree(lower, raw[i]);
    }
  }

  lemma TotalOfOneMore(raw: seq<Item>, i: nat)
    requires i < |raw| && raw[i].size.Some?
    ensures Total(raw[..i + 1]) == Total(raw[..i]) + raw[i].size.value
  {
    assert DropLast(raw[..i + 1]) == raw[..i];
  }
}
