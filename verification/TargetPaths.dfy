/**
 Target paths: how a directory and a leaf are joined, cleaned as `filepath.Clean` does on Unix and on Windows, and
 compared without regard to case.
 */
module TargetPaths {
  import opened Text

  predicate IsSlash(c: char) {
    c == '/' || c == '\\'
  }

  predicate LooksWindowsPath(path: string) {
    || "\\\\" <= path
    || (|path| >= 3 && ('A' <= path[0] <= 'Z' || 'a' <= path[0] <= 'z') && path[1] == ':' && IsSlash(path[2]))
  }

  function TargetPathSeparator(base: string): char {
    if LooksWindowsPath(base) then '\\' else '/'
  }

  predicate Dots(element: string) {
    element == "" || element == "." || element == ".."
  }

  /** `JoinTargetPath` for one leaf. */
  function JoinTargetPath(dir: string, leaf: string): string {
    var trimmed := TrimRight(dir, IsSlash);
    var base := if trimmed == "" && "/" <= dir then "/" else trimmed;
    var part := Trim(leaf, IsSlash);
    if base == "/" then (if Dots(part) then "/" else "/" + part)
    else if Dots(part) then base
    else if base == "" then part
    else base + [TargetPathSeparator(dir)] + part
  }

  // ---- cleaning ----

  /** The systems differ in what separates the elements of a path, and in volumes. */
  datatype System = Unix | Windows

  function Separator(sys: System): char {
    if sys.Windows? then '\\' else '/'
  }

  predicate Separates(sys: System, c: char) {
    c == '/' || c == Separator(sys)
  }

  predicate Solid(sys: System, s: string) {
    forall c :: c in s ==> !Separates(sys, c)
  }

  /** `filepath.FromSlash`. */
  function Native(sys: System, path: string): string {
    seq(|path|, i requires 0 <= i < |path| => if Separates(sys, path[i]) then Separator(sys) else path[i])
  }

  /** The elements that remain: empty and single-dot ones are dropped, two dots take the element before them away. */
  function Reduced(rooted: bool, elements: seq<string>): seq<string> {
    if elements == [] then []
    else
      var before := Reduced(rooted, elements[..|elements| - 1]);
      var e := elements[|elements| - 1];
      if e == "" || e == "." then before
      else if e == ".." then
        if before != [] && before[|before| - 1] != ".." then before[..|before| - 1]
        else if rooted then before
        else before + [e]
      else before + [e]
  }

  /** Cleaning what follows the volume, with one kind of separator. */
  function CleanRest(sep: char, path: string): string {
    var rooted := [sep] <= path;
    var cleaned := (if rooted then [sep] else []) + Join(Reduced(rooted, Split(path, sep)), sep);
    if cleaned == [] then "." else cleaned
  }

  /** Where a path has its n-th separator from a place on; its length if it has fewer. */
  function NthSeparator(sep: char, path: string, from: nat, n: nat): (at: nat)
    requires from <= |path|
    ensures from <= at <= |path| && (at < |path| ==> path[at] == sep)
    decreases |path| - from
  {
    if from == |path| then from
    else if path[from] != sep then NthSeparator(sep, path, from + 1, n)
    else if n <= 1 then from
    else NthSeparator(sep, path, from + 1, n - 1)
  }

  /** A drive letter with its colon, or a host and a share. */
  function VolumeLength(sys: System, path: string): (n: nat)
    ensures n <= |path|
  {
    var sep := Separator(sys);
    if sys.Unix? || |path| < 2 then 0
    else if path[1] == ':' then 2
    else if path[0] == sep && path[1] == sep then NthSeparator(sep, path, 2, 2)
    else 0
  }

  /** A changed path without a volume must not begin to look as if it had one. */
  function Guard(sys: System, path: string, cleaned: string): string {
    if sys.Windows? && !(cleaned <= path) && ':' in CutAt(cleaned, '\\').before then ".\\" else ""
  }

  function Clean(sys: System, path: string): string {
    var native := Native(sys, path);
    var n := VolumeLength(sys, native);
    var volume, rest := native[..n], native[n..];
    if rest != [] || n == 0 then
      var cleaned := CleanRest(Separator(sys), rest);
      volume + (if n == 0 then Guard(sys, path, cleaned) else "") + cleaned
    else if native[1] == ':' then native + "."
    else native
  }

  // ---- comparing ----

  /** Lower-casing of single characters; none below the letter A is changed. */
  type Casing = f: char -> char | forall c :: c < 'A' ==> f(c) == c witness (c: char) => c

  function Lower(casing: Casing, s: string): string {
    seq(|s|, i requires 0 <= i < |s| => casing(s[i]))
  }

  /** Paths with the same key name the same file. */
  function PathKey(sys: System, casing: Casing, path: string): string {
    Lower(casing, Clean(sys, path))
  }

  // ---- parts of a name ----

  /** `filepath.Ext`: from the last dot of the last path element on. */
  function Ext(sys: System, name: string): (e: string)
    ensures |e| <= |name| && name[|name| - |e|..] == e
    ensures e == [] || (e[0] == '.' && Solid(sys, e) && '.' !in e[1..])
    decreases |name|
  {
    if name == [] || Separates(sys, name[|name| - 1]) then []
    else if name[|name| - 1] == '.' then name[|name| - 1..]
    else
      var shorter := Ext(sys, name[..|name| - 1]);
      if shorter == [] then [] else shorter + [name[|name| - 1]]
  }

  /** No extension means no dot in the last element. */
  lemma {:induction false} NoExtension(sys: System, name: string, i: nat)
    requires Ext(sys, name) == [] && i < |name| && name[i] == '.'
    ensures exists j :: i < j < |name| && Separates(sys, name[j])
  {
    var last := |name| - 1;
    if Separates(sys, name[last]) {
      assert i < last;
    } else {
      NoExtension(sys, name[..last], i);
      var j :| i < j < last && Separates(sys, name[..last][j]);
      assert Separates(sys, name[j]);
    }
  }

  function Stem(sys: System, name: string): string {
    name[..|name| - |Ext(sys, name)|]
  }

  /** `SplitRenderedNameLeaf`: everything up to the last slash or backslash. */
  function LeafPrefix(rendered: string): string {
    if rendered == [] then []
    else
      var last := rendered[|rendered| - 1];
      if last == '/' || last == '\\' then rendered else LeafPrefix(rendered[..|rendered| - 1])
  }

  // ---- cleaning is idempotent ----

  /** Elements that cleaning leaves alone: plain ones, after leading double dots if the path is not rooted. */
  predicate Plain(sep: char, rooted: bool, elements: seq<string>) {
    elements == [] ||
      var before, e := elements[..|elements| - 1], elements[|elements| - 1];
      && Plain(sep, rooted, before) && e != "" && e != "." && sep !in e
      && (e == ".." ==> !rooted && (before == [] || before[|before| - 1] == ".."))
  }

  lemma {:induction false} PlainParts(sep: char, rooted: bool, elements: seq<string>)
    requires Plain(sep, rooted, elements)
    ensures forall i :: 0 <= i < |elements| ==> elements[i] != "" && sep !in elements[i]
  {
    if elements != [] {
      PlainParts(sep, rooted, elements[..|elements| - 1]);
    }
  }

  lemma {:induction false} ReducedIsPlain(sep: char, rooted: bool, elements: seq<string>)
    requires forall i :: 0 <= i < |elements| ==> sep !in elements[i]
    ensures Plain(sep, rooted, Reduced(rooted, elements))
  {
    if elements != [] {
      var before, e := Reduced(rooted, elements[..|elements| - 1]), elements[|elements| - 1];
      ReducedIsPlain(sep, rooted, elements[..|elements| - 1]);
      assert (before + [e])[..|before|] == before;
    }
  }

  /** Plain elements are left alone, also after one that is dropped. */
  lemma {:induction false} PlainIsReduced(sep: char, rooted: bool, front: seq<string>, elements: seq<string>)
    requires Reduced(rooted, front) == [] && Plain(sep, rooted, elements)
    ensures Reduced(rooted, front + elements) == elements
  {
    hide Reduced;
    if elements == [] {
      assert front + elements == front;
    } else {
      var init, e := elements[..|elements| - 1], elements[|elements| - 1];
      PlainIsReduced(sep, rooted, front, init);
      ReducedPast(rooted, front + init, e);
      hide Plain;
      assert front + elements == front + init + [e];
    }
  }

  lemma ReducedPast(rooted: bool, front: seq<string>, e: string)
    requires var before := Reduced(rooted, front);
             e != "" && e != "." && (e == ".." ==> !rooted && (before == [] || before[|before| - 1] == ".."))
    ensures Reduced(rooted, front + [e]) == Reduced(rooted, front) + [e]
  {
    var elements := front + [e];
    assert elements[..|elements| - 1] == front && elements[|elements| - 1] == e;
  }

  /** Cleaning a cleaned path changes nothing. */
  lemma CleanRestIdempotent(sep: char, path: string)
    requires sep != '.'
    ensures CleanRest(sep, CleanRest(sep, path)) == CleanRest(sep, path)
  {
    var rooted := [sep] <= path;
    var elements := Reduced(rooted, Split(path, sep));
    JoinOfSplit(path, sep);
    ReducedIsPlain(sep, rooted, Split(path, sep));
    if elements == [] {
      NothingLeft(sep);
      hide Split, Reduced;
    } else {
      hide Reduced;
      PlainPath(sep, rooted, elements);
    }
  }

  lemma PlainPath(sep: char, rooted: bool, elements: seq<string>)
    requires sep != '.' && elements != [] && Plain(sep, rooted, elements)
    ensures var path := (if rooted then [sep] else []) + Join(elements, sep); path != [] && CleanRest(sep, path) == path
  {
    var joined := Join(elements, sep);
    PlainParts(sep, rooted, elements);
    JoinStarts(elements, sep);
    SplitOfJoin(elements, sep);
    if rooted {
      assert Reduced(true, [""] + elements) == elements by {
        assert [""][..0] == [];
        PlainIsReduced(sep, rooted, [""], elements);
      }
      SplitBehind(joined, sep);
      hide Reduced, Join, Plain, Split;
      assert [sep] <= [sep] + joined;
    } else {
      assert Reduced(false, elements) == elements by {
        assert [] + elements == elements;
        PlainIsReduced(sep, rooted, [], elements);
      }
      hide Reduced, Join, Plain, Split;
      assert [] + joined == joined;
    }
  }

  lemma SplitBehind(s: string, sep: char)
    ensures Split([sep] + s, sep) == [""] + Split(s, sep)
  {
    assert ([sep] + s)[1..] == s;
  }

  lemma NothingLeft(sep: char)
    requires sep != '.'
    ensures CleanRest(sep, ".") == "." && CleanRest(sep, [sep]) == [sep]
  {
    assert Reduced(false, Split(".", sep)) == [] by {
      SplitNone(".", sep);
      assert ["."][..0] == [];
      assert Reduced(false, ["."]) == Reduced(false, []);
    }
    assert Reduced(true, Split([sep], sep)) == [] by {
      assert [sep][1..] == "";
      assert Split([sep], sep) == ["", ""];
      assert ["", ""][..1] == [""] && [""][..0] == [];
      assert Reduced(true, [""]) == Reduced(true, []);
    }
    assert Join([], sep) == [];
    hide Reduced, Split, Join;
  }

  lemma JoinStarts(elements: seq<string>, sep: char)
    requires elements != [] && elements[0] != "" && sep !in elements[0]
    ensures Join(elements, sep) != [] && Join(elements, sep)[0] == elements[0][0] && !([sep] <= Join(elements, sep))
  {
  }

  /** On Unix that holds for whole paths, so a path and its cleaned form name the same file. */
  lemma CleanIsIdempotent(path: string)
    ensures Clean(Unix, Clean(Unix, path)) == Clean(Unix, path)
  {
    UnixClean(path);
    UnixClean(Clean(Unix, path));
    CleanRestIdempotent('/', path);
  }

  lemma UnixClean(path: string)
    ensures Clean(Unix, path) == CleanRest('/', path)
  {
    hide CleanRest;
    assert Native(Unix, path) == path;
    assert path[0..] == path;
  }

  /** The front ends at the last slash or backslash. */
  lemma {:induction false} LeafPrefixMeans(rendered: string)
    ensures var front := LeafPrefix(rendered);
            && |front| <= |rendered| && rendered[..|front|] == front && (front == [] || IsSlash(front[|front| - 1]))
            && forall c :: c in rendered[|front|..] ==> !IsSlash(c)
  {
    if rendered != [] && !IsSlash(rendered[|rendered| - 1]) {
      var init := rendered[..|rendered| - 1];
      LeafPrefixMeans(init);
      var front := LeafPrefix(init);
      assert rendered[|front|..] == init[|front|..] + [rendered[|rendered| - 1]];
    }
  }

  /** A plain leaf goes below its directory, after the separator that directory uses. */
  lemma JoinTargetPlain(dir: string, leaf: string)
    requires dir != [] && !IsSlash(dir[|dir| - 1]) && !Dots(leaf)
    requires !IsSlash(leaf[0]) && !IsSlash(leaf[|leaf| - 1])
    ensures JoinTargetPath(dir, leaf) == dir + [if LooksWindowsPath(dir) then '\\' else '/'] + leaf
  {
    TrimKeeps(leaf, IsSlash);
    assert TrimRight(dir, IsSlash) == dir;
    hide TrimLeft, TrimRight;
  }

  // ---- what joining and cleaning keep ----

  predicate EndsWith(s: string, end: string) {
    |end| <= |s| && s[|s| - |end|..] == end
  }

  lemma EndingOfEnding(s: string, middle: string, end: string)
    requires EndsWith(s, middle) && EndsWith(middle, end)
    ensures EndsWith(s, end)
  {
  }

  lemma JoinTargetEnds(dir: string, leaf: string)
    requires !Dots(Trim(leaf, IsSlash))
    ensures EndsWith(JoinTargetPath(dir, leaf), Trim(leaf, IsSlash))
  {
    hide TrimRight, TrimLeft, Dots;
  }

  lemma {:induction false} TrimLeftEnds(head: string, end: string)
    requires end != [] && !IsSlash(end[0])
    ensures EndsWith(TrimLeft(head + end, IsSlash), end)
  {
    var s := head + end;
    if head != [] && IsSlash(head[0]) {
      assert s[1..] == head[1..] + end;
      TrimLeftEnds(head[1..], end);
    } else {
      assert !IsSlash(s[0]);
    }
  }

  /** Trimming stops inside text that does not end in slashes. */
  lemma {:induction false} TrimRightEnds(head: string, end: string)
    requires head != [] && !IsSlash(head[|head| - 1])
    ensures TrimRight(head + end, IsSlash) == head + TrimRight(end, IsSlash)
  {
    var s := head + end;
    if end != [] && IsSlash(end[|end| - 1]) {
      assert s[..|s| - 1] == head + end[..|end| - 1];
      TrimRightEnds(head, end[..|end| - 1]);
    } else if end == [] {
      assert s == head;
    }
  }

  /** The last element of a path holds whatever the path ends in, up to a separator. */
  lemma {:induction false} SplitEnds(sep: char, head: string, end: string)
    requires sep !in end
    ensures var parts := Split(head + end, sep); EndsWith(parts[|parts| - 1], end)
  {
    var s := head + end;
    if head == [] {
      assert s == end;
      SplitNone(end, sep);
    } else {
      assert s[1..] == head[1..] + end;
      SplitEnds(sep, head[1..], end);
      var rest := Split(s[1..], sep);
      assert Split(s, sep) == if s[0] == sep then [[]] + rest else [[s[0]] + rest[0]] + rest[1..];
      hide Split;
      if |rest| == 1 && s[0] != sep {
        EndingOfEnding([s[0]] + rest[0], rest[0], end);
      }
    }
  }

  lemma {:induction false} JoinEnds(sep: char, parts: seq<string>)
    requires parts != []
    ensures EndsWith(Join(parts, sep), parts[|parts| - 1])
  {
    if |parts| > 1 {
      JoinEnds(sep, parts[1..]);
      EndingOfEnding(Join(parts, sep), Join(parts[1..], sep), parts[|parts| - 1]);
    }
  }

  /** The end of the last element stays, unless that is one of the special ones. */
  lemma RestEnds(sep: char, path: string, end: string)
    requires EndsWith(path, end) && sep !in end && |end| >= 3
    ensures EndsWith(CleanRest(sep, path), end)
  {
    var parts := Split(path, sep);
    assert path[..|path| - |end|] + end == path;
    SplitEnds(sep, path[..|path| - |end|], end);
    var last := parts[|parts| - 1];
    var left := Reduced([sep] <= path, parts);
    assert left[|left| - 1] == last;
    JoinEnds(sep, left);
    hide Reduced, Split, Join;
    EndingOfEnding(Join(left, sep), last, end);
    EndingOfEnding(CleanRest(sep, path), Join(left, sep), end);
  }

  lemma NativeEnds(sys: System, path: string, end: string)
    requires EndsWith(path, end) && Solid(sys, end)
    ensures EndsWith(Native(sys, path), end) && Separator(sys) !in end
  {
    hide Separator;
    assert Separates(sys, Separator(sys));
    var k := |path| - |end|;
    forall i | 0 <= i < |end| ensures Native(sys, path)[k..][i] == end[i] {
      assert path[k..][i] == end[i] && end[i] in end;
    }
  }

  /** No volume ends inside text without separators that does not begin like a drive. */
  lemma VolumeBefore(sys: System, native: string, end: string)
    requires EndsWith(native, end) && Separator(sys) !in end && |end| >= 3 && end[0] != ':' && end[1] != ':'
    ensures var n := VolumeLength(sys, native);
            && (n <= |native| - |end| || (n == |native| && native[1] != ':'))
  {
    var n, k := VolumeLength(sys, native), |native| - |end|;
    assert forall i :: 0 <= i < |end| ==> native[k + i] == end[i] by {
      assert forall i :: 0 <= i < |end| ==> native[k..][i] == end[i];
    }
  }

  /** Cleaning keeps what a path ends in, on every system, if that holds no separator and is no special element. */
  lemma CleanEnds(sys: System, path: string, end: string)
    requires EndsWith(path, end) && Solid(sys, end) && |end| >= 3 && end[0] != ':' && end[1] != ':'
    ensures EndsWith(Clean(sys, path), end)
  {
    var native := Native(sys, path);
    NativeEnds(sys, path, end);
    VolumeBefore(sys, native, end);
    var n := VolumeLength(sys, native);
    hide Native, Separator, VolumeLength, CleanRest, Guard, Solid;
    if n < |native| {
      assert native[n..][|native[n..]| - |end|..] == native[|native| - |end|..];
      RestEnds(Separator(sys), native[n..], end);
      EndingOfEnding(Clean(sys, path), CleanRest(Separator(sys), native[n..]), end);
    }
  }

  /** What is left of a leaf that ends in `middle` and `ext`, when neither end of `middle` is a slash. */
  lemma TrimEnds(head: string, middle: string, ext: string)
    requires middle != [] && !IsSlash(middle[0]) && !IsSlash(middle[|middle| - 1])
    ensures EndsWith(Trim(head + middle + ext, IsSlash), middle + TrimRight(ext, IsSlash))
  {
    hide TrimLeft, TrimRight, IsSlash;
    assert head + middle + ext == head + (middle + ext);
    TrimLeftEnds(head, middle + ext);
    var t := TrimLeft(head + middle + ext, IsSlash);
    var front := t[..|t| - |ext|];
    EndSplits(t, middle, ext);
    TrimRightEnds(front, ext);
  }

  lemma EndSplits(s: string, middle: string, end: string)
    requires EndsWith(s, middle + end)
    ensures var front := s[..|s| - |end|]; s == front + end && EndsWith(front, middle)
  {
    var at := |s| - |middle| - |end|;
    assert s[at..][..|middle|] == middle && s[at..][|middle|..] == end;
    assert s[..|s| - |end|][at..] == s[at..][..|middle|];
  }

  lemma {:induction false} TrimmedIsSolid(sys: System, s: string)
    requires Solid(sys, s)
    ensures Solid(sys, TrimRight(s, IsSlash))
  {
    if s != [] {
      TrimmedIsSolid(sys, s[..|s| - 1]);
    }
  }

  /** Joining, cleaning and lower-casing keep the end of a leaf. */
  lemma KeyEnds(sys: System, casing: Casing, dir: string, leaf: string, end: string)
    requires EndsWith(Trim(leaf, IsSlash), end) && Solid(sys, end) && |end| >= 3 && end[0] != ':' && end[1] != ':'
    ensures EndsWith(PathKey(sys, casing, JoinTargetPath(dir, leaf)), Lower(casing, end))
  {
    hide TrimLeft, TrimRight, IsSlash, Clean, JoinTargetPath, Solid;
    var path, part := JoinTargetPath(dir, leaf), Trim(leaf, IsSlash);
    JoinTargetEnds(dir, leaf);
    EndingOfEnding(path, part, end);
    CleanEnds(sys, path, end);
  }
}
