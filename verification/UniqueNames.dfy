/**
 Unique names for a batch of downloads: names whose paths collide are numbered, within their byte limits.
 */
module UniqueNames {
  import opened Collections
  import opened Decimal
  import opened Text
  import opened TargetPaths

  function Suffix(n: nat): string {
    " (" + Format(n) + ")"
  }

  /** How directories and leaves make paths, and what identifies the file a path names. */
  datatype Paths = Paths(sys: System, join: (string, string) -> string, key: string -> string)

  /** The paths of the program on a system: joined, and compared by their cleaned and lower-cased form. */
  function Target(sys: System, casing: Casing): Paths {
    Paths(sys, (dir: string, leaf: string) => JoinTargetPath(dir, leaf), (path: string) => PathKey(sys, casing, path))
  }

  function KeyOf(paths: Paths, dir: string, leaf: string): string {
    paths.key(paths.join(dir, leaf))
  }

  function Numbered(stem: string, n: nat, ext: string): string {
    stem + Suffix(n) + ext
  }

  // ---- different numbers, different paths ----

  ghost predicate ExtLike(sys: System, ext: string) {
    ext == [] || (ext[0] == '.' && Solid(sys, ext))
  }

  lemma SuffixIsSolid(sys: System, n: nat)
    ensures Solid(sys, Suffix(n)) && |Suffix(n)| >= 3 && Suffix(n)[0] == ' ' && Suffix(n)[1] == '(' && Suffix(n)[|Suffix(n)| - 1] == ')'
  {
    hide Format;
    var digits := Format(n);
    forall c | c in digits ensures IsDigit(c) {
    }
  }

  /** The key of a numbered leaf still ends in the number and what trimming leaves of the extension. */
  lemma NumberShows(sys: System, casing: Casing, dir: string, stem: string, n: nat, ext: string)
    requires ExtLike(sys, ext)
    ensures EndsWith(KeyOf(Target(sys, casing), dir, Numbered(stem, n, ext)), Lower(casing, Suffix(n) + TrimRight(ext, IsSlash)))
  {
    var end := Suffix(n) + TrimRight(ext, IsSlash);
    SuffixIsSolid(sys, n);
    TrimEnds(stem, Suffix(n), ext);
    TrimmedIsSolid(sys, ext);
    hide TrimLeft, TrimRight, JoinTargetPath, PathKey, EndsWith, Lower, IsSlash, Suffix;
    KeyEnds(sys, casing, dir, Numbered(stem, n, ext), end);
  }

  /** Leaves of one directory with different numbers before one extension name different files. */
  ghost predicate NumbersTell(paths: Paths) {
    forall dir, s, t, ext, m, n :: ExtLike(paths.sys, ext) && m != n ==>
      KeyOf(paths, dir, Numbered(s, m, ext)) != KeyOf(paths, dir, Numbered(t, n, ext))
  }

  lemma TargetNumbersTell(sys: System, casing: Casing)
    ensures NumbersTell(Target(sys, casing))
  {
    forall dir, s, t, ext, m, n | ExtLike(sys, ext) && m != n
      ensures KeyOf(Target(sys, casing), dir, Numbered(s, m, ext)) != KeyOf(Target(sys, casing), dir, Numbered(t, n, ext))
    {
      hide KeyOf, Numbered, ExtLike;
      NumbersDiffer(sys, casing, dir, s, t, ext, m, n);
    }
  }

  /** Leaves of one directory with different numbers before one extension name different files. */
  lemma NumbersDiffer(sys: System, casing: Casing, dir: string, s: string, t: string, ext: string, m: nat, n: nat)
    requires ExtLike(sys, ext) && m != n
    ensures KeyOf(Target(sys, casing), dir, Numbered(s, m, ext)) != KeyOf(Target(sys, casing), dir, Numbered(t, n, ext))
  {
    NumberShows(sys, casing, dir, s, m, ext);
    NumberShows(sys, casing, dir, t, n, ext);
    hide KeyOf, Numbered, EndsWith, Lower, Suffix, Format, ExtLike, TrimRight;
    var key := KeyOf(Target(sys, casing), dir, Numbered(s, m, ext));
    if key == KeyOf(Target(sys, casing), dir, Numbered(t, n, ext)) {
      if |Format(m)| <= |Format(n)| {
        EndsClash(casing, key, TrimRight(ext, IsSlash), m, n);
      } else {
        EndsClash(casing, key, TrimRight(ext, IsSlash), n, m);
      }
    }
  }

  lemma EndsClash(casing: Casing, key: string, ext: string, m: nat, n: nat)
    requires m != n && |Format(m)| <= |Format(n)|
    requires EndsWith(key, Lower(casing, Suffix(m) + ext))
    ensures !EndsWith(key, Lower(casing, Suffix(n) + ext))
  {
    hide EndsWith, Lower, Suffix, FromRight;
    var back := DifferingPlace(casing, m, n);
    EndAt(casing, key, ext, m, back);
    if EndsWith(key, Lower(casing, Suffix(n) + ext)) {
      EndAt(casing, key, ext, n, back);
    }
  }

  /** The character `back` places before the end of a numeral, the opening parenthesis coming after the last one. */
  function FromRight(n: nat, back: nat): char
    requires back <= |Format(n)|
  {
    if back < |Format(n)| then Format(n)[|Format(n)| - 1 - back] else '('
  }

  lemma EndAt(casing: Casing, key: string, ext: string, n: nat, back: nat)
    requires EndsWith(key, Lower(casing, Suffix(n) + ext)) && back <= |Format(n)|
    ensures var at := |key| - |ext| - 2 - back; 0 <= at && key[at] == casing(FromRight(n, back))
  {
    var end := Suffix(n) + ext;
    var k := |end| - |ext| - 2 - back;
    EndChar(n, ext, back);
    hide Suffix, Format, FromRight;
    assert Lower(casing, end)[k] == casing(end[k]);
    assert key[|key| - |end|..][k] == key[|key| - |end| + k];
  }

  lemma EndChar(n: nat, ext: string, back: nat)
    requires back <= |Format(n)|
    ensures var end := Suffix(n) + ext;
            var k := |end| - |ext| - 2 - back;
            0 <= k && end[k] == FromRight(n, back)
  {
    hide Format;
    var digits := Format(n);
    assert Suffix(n) == [' ', '('] + digits + [')'];
    assert (Suffix(n) + ext)[|Suffix(n)| - 2 - back] == Suffix(n)[|Suffix(n)| - 2 - back];
  }

  /** Seen from the right, two numerals differ in a digit, or one stops where the other goes on. */
  lemma DifferingPlace(casing: Casing, m: nat, n: nat) returns (back: nat)
    requires m != n && |Format(m)| <= |Format(n)|
    ensures back <= |Format(m)| && back <= |Format(n)|
    ensures casing(FromRight(m, back)) != casing(FromRight(n, back))
  {
    hide Format;
    if |Format(m)| < |Format(n)| {
      back := |Format(m)|;
      assert IsDigit(Format(n)[|Format(n)| - 1 - back]);
    } else {
      if forall i :: 0 <= i < |Format(m)| ==> Format(m)[i] == Format(n)[i] {
        assert Format(m) == Format(n);
        FormatInjective(m, n);
      }
      var i :| 0 <= i < |Format(m)| && Format(m)[i] != Format(n)[i];
      back := |Format(m)| - 1 - i;
      assert IsDigit(Format(m)[i]) && IsDigit(Format(n)[i]);
    }
  }

  // ---- UTF-8 lengths ----

  function RuneLen(c: char): (n: nat)
    ensures 1 <= n <= 4
  {
    var v := c as int;
    if v < 0x80 then 1 else if v < 0x800 then 2 else if v < 0x1_0000 then 3 else 4
  }

  /** The length of a string in bytes. */
  function Bytes(s: string): nat {
    if s == [] then 0 else Bytes(s[..|s| - 1]) + RuneLen(s[|s| - 1])
  }

  lemma {:induction false} BytesOfConcat(s: string, t: string)
    ensures Bytes(s + t) == Bytes(s) + Bytes(t)
  {
    if t == [] {
      assert s + t == s;
    } else {
      BytesOfConcat(s, t[..|t| - 1]);
      assert (s + t)[..|s + t| - 1] == s + t[..|t| - 1];
    }
  }

  lemma BytesOfPrefix(s: string, k: nat)
    requires k <= |s|
    ensures Bytes(s[..k]) <= Bytes(s)
  {
    hide Bytes;
    BytesOfConcat(s[..k], s[k..]);
    assert s[..k] + s[k..] == s;
  }

  lemma BytesOfOneMore(s: string, k: nat)
    requires k < |s|
    ensures Bytes(s[..k + 1]) == Bytes(s[..k]) + RuneLen(s[k])
  {
    var t := s[..k + 1];
    assert t[..|t| - 1] == s[..k] && t[|t| - 1] == s[k];
  }

  /** `r` is the longest prefix of `s` that takes at most `limit` bytes. */
  ghost predicate Truncated(s: string, limit: nat, r: string) {
    && r <= s && Bytes(r) <= limit
    && (|r| < |s| ==> Bytes(s[..|r| + 1]) > limit)
  }

  /** The longest prefix that fits, found from the other end. */
  function Fitting(s: string, limit: nat): string {
    if s == [] || Bytes(s) <= limit then s else Fitting(s[..|s| - 1], limit)
  }

  lemma {:induction false} FittingIsLongest(s: string, limit: nat, r: string)
    requires Truncated(s, limit, r)
    ensures r == Fitting(s, limit)
  {
    if s != [] && Bytes(s) > limit {
      var shorter := s[..|s| - 1];
      assert |r| == |s| ==> r == s;
      assert r <= shorter;
      if |r| < |shorter| {
        assert shorter[..|r| + 1] == s[..|r| + 1];
      }
      FittingIsLongest(shorter, limit, r);
    } else if |r| < |s| {
      hide Fitting, Bytes;
      BytesOfPrefix(s, |r| + 1);
    }
  }

  lemma {:induction false} FittingFits(s: string, limit: nat)
    ensures Fitting(s, limit) <= s && Bytes(Fitting(s, limit)) <= limit
  {
    if s != [] && Bytes(s) > limit {
      FittingFits(s[..|s| - 1], limit);
    }
  }

  /** `TruncateBytesKeepingRunes`: the longest prefix of at most `limit` bytes that splits no rune. */
  method Truncate(s: string, limit: nat) returns (r: string)
    ensures Truncated(s, limit, r) && r == Fitting(s, limit)
  {
    if Bytes(s) <= limit {
      FittingIsLongest(s, limit, s);
      return s;
    }
    var k, n := 0, 0;
    assert s[..0] == [];
    while k < |s|
      invariant k < |s| && n == Bytes(s[..k]) <= limit
      decreases |s| - k
    {
      BytesOfOneMore(s, k);
      assert k + 1 == |s| ==> s[..k + 1] == s;
      if n + RuneLen(s[k]) > limit {
        break;
      }
      n := n + RuneLen(s[k]);
      k := k + 1;
    }
    FittingIsLongest(s, limit, s[..k]);
    return s[..k];
  }

  // ---- the names ----

  datatype Naming = Naming(dir: string, out: string, fullPath: string, fileName: string, maxBytes: int)

  datatype Outcome = Unique(names: seq<Naming>) | Uninitialized | Cancelled | TooLong(index: nat)

  function LimitOf(item: Naming, configured: nat): nat {
    if item.maxBytes <= 0 || item.maxBytes > 255 then configured else item.maxBytes
  }

  /** The room left for the stem beside the suffix and the extension. */
  function Room(sys: System, original: string, limit: nat, n: nat): int {
    limit - Bytes(Suffix(n)) - Bytes(Ext(sys, original))
  }

  /** The n-th name tried: the original, then the stem cut to size with the numbers 2, 3, ... */
  function Candidate(sys: System, original: string, limit: nat, n: nat): string
    requires n <= 1 || Room(sys, original, limit, n) >= 0
  {
    if n <= 1 then original else Numbered(Fitting(Stem(sys, original), Room(sys, original, limit, n)), n, Ext(sys, original))
  }

  /** The key of the n-th name tried is taken; there is such a name. */
  predicate Taken(paths: Paths, used: set<string>, dir: string, original: string, limit: nat, n: nat) {
    (n <= 1 || Room(paths.sys, original, limit, n) >= 0) && KeyOf(paths, dir, Candidate(paths.sys, original, limit, n)) in used
  }

  /** The first name whose key is free is the n-th, or there is no room for the n-th. */
  ghost predicate Settled(paths: Paths, used: set<string>, dir: string, original: string, limit: nat, n: nat) {
    && 1 <= n && (forall m :: 1 <= m < n ==> Taken(paths, used, dir, original, limit, m))
    && !Taken(paths, used, dir, original, limit, n)
  }

  lemma SettledOnce(paths: Paths, used: set<string>, dir: string, original: string, limit: nat, m: nat, n: nat)
    requires Settled(paths, used, dir, original, limit, m) && Settled(paths, used, dir, original, limit, n)
    ensures m == n
  {
    assert m < n ==> Taken(paths, used, dir, original, limit, m);
    assert n < m ==> Taken(paths, used, dir, original, limit, n);
  }

  lemma CandidateFits(sys: System, original: string, limit: nat, n: nat)
    requires 2 <= n && Room(sys, original, limit, n) >= 0
    ensures Bytes(Candidate(sys, original, limit, n)) <= limit
  {
    var stem := Fitting(Stem(sys, original), Room(sys, original, limit, n));
    FittingFits(Stem(sys, original), Room(sys, original, limit, n));
    BytesOfConcat(stem, Suffix(n));
    BytesOfConcat(stem + Suffix(n), Ext(sys, original));
  }

  /** The keys of the numbered names tried so far. */
  ghost function Tried(paths: Paths, dir: string, original: string, limit: nat, n: nat): set<string>
    requires forall m :: 2 <= m < n ==> Room(paths.sys, original, limit, m) >= 0
  {
    set m | 2 <= m < n :: KeyOf(paths, dir, Candidate(paths.sys, original, limit, m))
  }

  /** Pigeonhole: differently numbered names have different keys, so as many are taken as have been tried. */
  lemma {:induction false} TriedCount(paths: Paths, used: set<string>, dir: string, original: string, limit: nat, n: nat)
    requires NumbersTell(paths) && 2 <= n
    requires forall m :: 2 <= m < n ==> Taken(paths, used, dir, original, limit, m)
    ensures n - 2 <= |used|
    ensures forall m :: 2 <= m < n ==> Room(paths.sys, original, limit, m) >= 0
    ensures |Tried(paths, dir, original, limit, n)| == n - 2 && Tried(paths, dir, original, limit, n) <= used
  {
    hide Candidate, Room;
    forall m | 2 <= m < n ensures Room(paths.sys, original, limit, m) >= 0 {
      assert Taken(paths, used, dir, original, limit, m);
    }
    if n > 2 {
      TriedCount(paths, used, dir, original, limit, n - 1);
      var last := KeyOf(paths, dir, Candidate(paths.sys, original, limit, n - 1));
      assert Taken(paths, used, dir, original, limit, n - 1);
      assert Tried(paths, dir, original, limit, n) == Tried(paths, dir, original, limit, n - 1) + {last};
      forall m | 2 <= m < n - 1 ensures KeyOf(paths, dir, Candidate(paths.sys, original, limit, m)) != last {
        DifferentKeys(paths, dir, original, limit, m, n - 1);
      }
    }
    SubsetSize(Tried(paths, dir, original, limit, n), used);
  }

  lemma DifferentKeys(paths: Paths, dir: string, original: string, limit: nat, m: nat, n: nat)
    requires NumbersTell(paths) && 2 <= m < n && Room(paths.sys, original, limit, m) >= 0 && Room(paths.sys, original, limit, n) >= 0
    ensures KeyOf(paths, dir, Candidate(paths.sys, original, limit, m)) != KeyOf(paths, dir, Candidate(paths.sys, original, limit, n))
  {
    hide KeyOf, Room, Fitting, Numbered, Stem;
    var ext := Ext(paths.sys, original);
    assert ExtLike(paths.sys, ext);
  }

  /** Before the n-th name is tried. */
  ghost predicate Trying(paths: Paths, used: set<string>, dir: string, original: string, limit: nat, n: nat, candidate: string) {
    && 1 <= n && (n == 1 || Room(paths.sys, original, limit, n) >= 0) && candidate == Candidate(paths.sys, original, limit, n)
    && forall m :: 1 <= m < n ==> Taken(paths, used, dir, original, limit, m)
  }

  lemma TryingStarts(paths: Paths, used: set<string>, dir: string, original: string, limit: nat)
    ensures Trying(paths, used, dir, original, limit, 1, original)
  {
  }

  lemma TryingIsBounded(paths: Paths, used: set<string>, dir: string, original: string, limit: nat, n: nat, candidate: string)
    requires NumbersTell(paths) && Trying(paths, used, dir, original, limit, n, candidate)
    ensures 1 <= n <= |used| + 2
  {
    if n >= 2 {
      TriedCount(paths, used, dir, original, limit, n);
    }
  }

  lemma TryingEnds(paths: Paths, used: set<string>, dir: string, original: string, limit: nat, n: nat, candidate: string)
    requires Trying(paths, used, dir, original, limit, n, candidate) && KeyOf(paths, dir, candidate) !in used
    ensures Settled(paths, used, dir, original, limit, n) && candidate == Candidate(paths.sys, original, limit, n)
    ensures n == 1 || Room(paths.sys, original, limit, n) >= 0
  {
  }

  /** There is room for the n-th name, which is tried, or that settles it. */
  ghost predicate GoneOn(paths: Paths, used: set<string>, dir: string, original: string, limit: nat, n: nat) {
    if Room(paths.sys, original, limit, n) >= 0
    then Trying(paths, used, dir, original, limit, n, Candidate(paths.sys, original, limit, n))
    else Settled(paths, used, dir, original, limit, n)
  }

  lemma TryingGoesOn(paths: Paths, used: set<string>, dir: string, original: string, limit: nat, n: nat, candidate: string)
    requires Trying(paths, used, dir, original, limit, n, candidate) && KeyOf(paths, dir, candidate) in used
    ensures GoneOn(paths, used, dir, original, limit, n + 1)
  {
    hide Candidate, Room, KeyOf;
    assert Taken(paths, used, dir, original, limit, n);
  }

  /** The loop for one item: the first free name, or the first number for which there is no room. */
  method Rename(sys: System, casing: Casing, used: set<string>, item: Naming, limit: nat) returns (ok: bool, renamed: Naming, ghost n: nat)
    ensures Settled(Target(sys, casing), used, item.dir, item.out, limit, n)
    ensures ok <==> n == 1 || Room(sys, item.out, limit, n) >= 0
    ensures ok ==> PathKey(sys, casing, renamed.fullPath) !in used && renamed.fullPath == JoinTargetPath(item.dir, renamed.out)
    ensures ok ==>
              var leaf := Candidate(sys, item.out, limit, n);
              renamed == item.(out := leaf, fullPath := JoinTargetPath(item.dir, leaf), fileName := LeafPrefix(item.fileName) + leaf)
  {
    hide Candidate, Room, Ext, Trying, Settled, Taken, Bytes, Suffix, Fitting, Stem, LeafPrefix, Truncated, JoinTargetPath, PathKey, NumbersTell;
    ghost var paths := Target(sys, casing);
    TargetNumbersTell(sys, casing);
    var original := item.out;
    var candidate := original;
    var sequence := 2;
    TryingStarts(paths, used, item.dir, original, limit);
    TryingIsBounded(paths, used, item.dir, original, limit, 1, original);
    while true
      invariant 2 <= sequence <= |used| + 3
      invariant Trying(paths, used, item.dir, original, limit, sequence - 1, candidate)
      decreases |used| + 3 - sequence
    {
      var full := JoinTargetPath(item.dir, candidate);
      n := sequence - 1;
      if PathKey(sys, casing, full) !in used {
        TryingEnds(paths, used, item.dir, original, limit, n, candidate);
        return true, item.(out := candidate, fullPath := full, fileName := LeafPrefix(item.fileName) + candidate), n;
      }
      TryingGoesOn(paths, used, item.dir, original, limit, n, candidate);
      NoRoom(sys, original, limit, sequence);
      var ext := Ext(sys, original);
      var suffix := Suffix(sequence);
      if Bytes(suffix) + Bytes(ext) > limit {
        return false, item, sequence;
      }
      var stem := Truncate(Stem(sys, original), limit - Bytes(suffix) - Bytes(ext));
      candidate := stem + suffix + ext;
      TryingIsBounded(paths, used, item.dir, original, limit, sequence, candidate);
      sequence := sequence + 1;
    }
  }

  lemma NoRoom(sys: System, original: string, limit: nat, n: nat)
    ensures Room(sys, original, limit, n) >= 0 <==> Bytes(Suffix(n)) + Bytes(Ext(sys, original)) <= limit
    ensures 2 <= n && Room(sys, original, limit, n) >= 0 ==>
              Candidate(sys, original, limit, n) == Fitting(Stem(sys, original), limit - Bytes(Suffix(n)) - Bytes(Ext(sys, original))) + Suffix(n) + Ext(sys, original)
  {
    hide Bytes, Fitting, Ext, Suffix;
  }

  // ---- the whole batch ----

  ghost function Keys(paths: Paths, names: seq<Naming>): seq<string> {
    seq(|names|, i requires 0 <= i < |names| => paths.key(names[i].fullPath))
  }

  /** What became of one item, given the names of those before it. */
  ghost predicate Named(paths: Paths, configured: nat, before: seq<Naming>, item: Naming, named: Naming) {
    var limit := LimitOf(item, configured);
    exists n: nat ::
      && Settled(paths, Members(Keys(paths, before)), item.dir, item.out, limit, n)
      && (n == 1 || Room(paths.sys, item.out, limit, n) >= 0)
      && named == (var leaf := Candidate(paths.sys, item.out, limit, n);
                   item.(out := leaf, fullPath := paths.join(item.dir, leaf), fileName := LeafPrefix(item.fileName) + leaf))
  }

  /** No name is left for the item: everything before the n-th is taken, and there is no room for that one. */
  ghost predicate Unnameable(paths: Paths, configured: nat, before: seq<Naming>, item: Naming) {
    var limit := LimitOf(item, configured);
    exists n: nat :: 2 <= n && Settled(paths, Members(Keys(paths, before)), item.dir, item.out, limit, n) && Room(paths.sys, item.out, limit, n) < 0
  }

  ghost predicate AllNamed(paths: Paths, configured: nat, input: seq<Naming>, names: seq<Naming>) {
    && |names| <= |input| && Distinct(Keys(paths, names))
    && forall i :: 0 <= i < |names| ==> Named(paths, configured, names[..i], input[i], names[i])
  }

  lemma KeysGrow(paths: Paths, names: seq<Naming>, name: Naming)
    ensures Keys(paths, names + [name]) == Keys(paths, names) + [paths.key(name.fullPath)]
    ensures Members(Keys(paths, names + [name])) == Members(Keys(paths, names)) + {paths.key(name.fullPath)}
  {
    var longer := Keys(paths, names + [name]);
    assert longer == Keys(paths, names) + [paths.key(name.fullPath)];
    assert longer[|names|] == paths.key(name.fullPath);
    forall k | k in Keys(paths, names) ensures k in longer {
      var i :| 0 <= i < |names| && Keys(paths, names)[i] == k;
      assert longer[i] == k;
    }
  }

  lemma AllNamedStep(paths: Paths, configured: nat, input: seq<Naming>, names: seq<Naming>, named: Naming)
    requires AllNamed(paths, configured, input, names) && |names| < |input|
    requires Named(paths, configured, names, input[|names|], named)
    ensures AllNamed(paths, configured, input, names + [named])
  {
    hide Named, Keys, Distinct, Members;
    KeysGrow(paths, names, named);
    NamedIsNew(paths, configured, names, input[|names|], named);
    var longer := names + [named];
    DistinctGrows(Keys(paths, names), paths.key(named.fullPath));
    forall i | 0 <= i < |longer| ensures Named(paths, configured, longer[..i], input[i], longer[i]) {
      assert longer[..i] == names[..i];
    }
    assert names[..|names|] == names;
  }

  lemma DistinctGrows(s: seq<string>, x: string)
    requires Distinct(s) && x !in s
    ensures Distinct(s + [x])
  {
  }

  lemma NamedIsNew(paths: Paths, configured: nat, before: seq<Naming>, item: Naming, named: Naming)
    requires Named(paths, configured, before, item, named)
    ensures paths.key(named.fullPath) !in Keys(paths, before)
  {
    hide Keys, Room, Candidate;
  }

  /**
   `Rules.Unique`: pairwise different paths, in input order, each item under the first name still free. Apart from
   missing settings and cancellation it fails only for an item whose numbered name cannot keep number and extension.
   */
  method MakeUnique(sys: System, casing: Casing, settings: Option<nat>, input: seq<Naming>) returns (r: Outcome)
    ensures r.Uninitialized? <==> settings.None?
    ensures r.Unique? ==> |r.names| == |input| && AllNamed(Target(sys, casing), settings.value, input, r.names)
    ensures r.TooLong? ==> r.index < |input| && exists before :: |before| == r.index && AllNamed(Target(sys, casing), settings.value, input, before)
                                                         && Unnameable(Target(sys, casing), settings.value, before, input[r.index])
  {
    if settings.None? {
      return Uninitialized;
    }
    ghost var paths := Target(sys, casing);
    var names: seq<Naming> := [];
    var used: set<string> := {};
    for i := 0 to |input|
      invariant |names| == i && AllNamed(paths, settings.value, input, names)
      invariant used == Members(Keys(paths, names))
    {
      hide AllNamed, Settled, Candidate, Room, LeafPrefix, Members, Keys, PathKey, JoinTargetPath;
      var cancelled: bool := *;
      if cancelled {
        return Cancelled;
      }
      var ok, named;
      ghost var n;
      ok, named, n := Rename(sys, casing, used, input[i], LimitOf(input[i], settings.value));
      if !ok {
        return TooLong(i);
      }
      AllNamedStep(paths, settings.value, input, names, named);
      KeysGrow(paths, names, named);
      used := used + {PathKey(sys, casing, named.fullPath)};
      names := names + [named];
    }
    return Unique(names);
  }

  /** A renamed leaf keeps its number and extension and fits the limit. */
  lemma RenamedFits(paths: Paths, configured: nat, before: seq<Naming>, item: Naming, named: Naming)
    requires Named(paths, configured, before, item, named) && named.out != item.out
    ensures Bytes(named.out) <= if 1 <= item.maxBytes <= 255 then item.maxBytes else configured
    ensures exists stem, n :: 2 <= n && named.out == Numbered(stem, n, Ext(paths.sys, item.out)) && stem <= Stem(paths.sys, item.out)
  {
    var limit := LimitOf(item, configured);
    var n: nat :| && Settled(paths, Members(Keys(paths, before)), item.dir, item.out, limit, n)
                  && (n == 1 || Room(paths.sys, item.out, limit, n) >= 0)
                  && named.out == Candidate(paths.sys, item.out, limit, n);
    CandidateFits(paths.sys, item.out, limit, n);
    FittingFits(Stem(paths.sys, item.out), Room(paths.sys, item.out, limit, n));
  }

  /** The rendered name keeps its directories, and ends in the new leaf. */
  lemma RenderedNameKept(paths: Paths, configured: nat, before: seq<Naming>, item: Naming, named: Naming)
    requires Named(paths, configured, before, item, named)
    ensures named.dir == item.dir && named.maxBytes == item.maxBytes && named.fullPath == paths.join(item.dir, named.out)
    ensures exists front, leaf :: && item.fileName == front + leaf && named.fileName == front + named.out
                                  && (forall c :: c in leaf ==> !IsSlash(c)) && (front == [] || IsSlash(front[|front| - 1]))
  {
    LeafPrefixMeans(item.fileName);
    var front := LeafPrefix(item.fileName);
    var leaf := item.fileName[|front|..];
    assert item.fileName == front + leaf;
    hide KeyOf, Room, Keys, Members, Ext, Fitting, Stem, Numbered, Candidate, Settled, LeafPrefix;
  }

  /** An item whose path nothing before it has taken keeps its name. */
  lemma FreeNameKept(paths: Paths, configured: nat, before: seq<Naming>, item: Naming, named: Naming)
    requires Named(paths, configured, before, item, named)
    requires KeyOf(paths, item.dir, item.out) !in Members(Keys(paths, before))
    ensures named.out == item.out && named.fullPath == paths.join(item.dir, item.out)
  {
    hide KeyOf, Room, Keys, Members, Ext, Fitting, Stem, Numbered, LeafPrefix, Bytes, Suffix;
    var limit := LimitOf(item, configured);
    var n: nat :| && Settled(paths, Members(Keys(paths, before)), item.dir, item.out, limit, n)
                  && (n == 1 || Room(paths.sys, item.out, limit, n) >= 0)
                  && named == (var leaf := Candidate(paths.sys, item.out, limit, n);
                               item.(out := leaf, fullPath := paths.join(item.dir, leaf), fileName := LeafPrefix(item.fileName) + leaf));
    assert n > 1 ==> Taken(paths, Members(Keys(paths, before)), item.dir, item.out, limit, 1);
  }

  /** Naming or failing: for every item exactly one of the two happens. */
  lemma NamedOrUnnameable(paths: Paths, configured: nat, before: seq<Naming>, item: Naming, named: Naming)
    requires Named(paths, configured, before, item, named)
    ensures !Unnameable(paths, configured, before, item)
  {
    var limit := LimitOf(item, configured);
    var used := Members(Keys(paths, before));
    var m: nat :| Settled(paths, used, item.dir, item.out, limit, m) && (m == 1 || Room(paths.sys, item.out, limit, m) >= 0);
    forall n: nat | 2 <= n && Settled(paths, used, item.dir, item.out, limit, n) ensures Room(paths.sys, item.out, limit, n) >= 0 {
      SettledOnce(paths, used, item.dir, item.out, limit, m, n);
    }
  }
}
