/** Choosing a destination that does not exist yet: `path_make_unique` of src/utils/path.c, and the
    reservation loop of src/platform/ipc_socket.c around it. */
module UniquePath {
  import opened Common

  const LAST := 1000000

  // ----- decimal numbers -----

  function Digit(n: nat): char
    requires n < 10
  {
    "0123456789"[n]
  }

  function Decimal(n: nat): (s: string)
    ensures s != ""
  {
    if n < 10 then [Digit(n)] else Decimal(n / 10) + [Digit(n % 10)]
  }

  lemma {:induction false} DecimalInjective(a: nat, b: nat)
    requires Decimal(a) == Decimal(b)
    ensures a == b
  {
    var x, y := Decimal(a), Decimal(b);
    assert x[|x| - 1] == Digit(a % 10) && y[|y| - 1] == Digit(b % 10);
    if a >= 10 && b >= 10 {
      assert x[..|x| - 1] == Decimal(a / 10) && y[..|y| - 1] == Decimal(b / 10);
      DecimalInjective(a / 10, b / 10);
    }
  }

  /** The number a text of digits stands for. */
  function NumberOf(s: string): int {
    if s == "" then 0 else 10 * NumberOf(s[..|s| - 1]) + (s[|s| - 1] as int - '0' as int)
  }

  /** The text is the number in base ten, in digits, without a leading zero. */
  lemma {:induction false} DecimalStandsFor(n: nat)
    ensures NumberOf(Decimal(n)) == n
    ensures forall c :: c in Decimal(n) ==> '0' <= c <= '9'
    ensures n > 0 ==> Decimal(n)[0] != '0'
  {
    DigitIs(n % 10);
    var s := Decimal(n);
    if n < 10 {
      DigitIs(n);
      assert s[..0] == "";
    } else {
      DecimalStandsFor(n / 10);
      assert s[..|s| - 1] == Decimal(n / 10);
    }
  }

  lemma DigitIs(n: nat)
    requires n < 10
    ensures Digit(n) as int == '0' as int + n
  {
  }

  // ----- the parts of a path -----

  /** One past the last occurrence of `c`; 0 when there is none. */
  function AfterLast(s: string, c: char): (n: nat)
    ensures n <= |s|
    ensures n > 0 ==> s[n - 1] == c
    ensures forall i :: n <= i < |s| ==> s[i] != c
  {
    if s == "" then 0 else if s[|s| - 1] == c then |s| else AfterLast(s[..|s| - 1], c)
  }

  predicate IsCompression(ext: string) { ext == ".gz" || ext == ".bz2" || ext == ".xz" || ext == ".zst" }

  /** Where the extension of a file name starts: at its last dot, unless that is its first character;
      at the dot before it when what is between is `tar` and what follows a compression suffix. */
  function ExtensionAt(name: string): (e: nat)
    ensures e <= |name|
    ensures e < |name| ==> name[e] == '.'
  {
    var dot := AfterLast(name, '.');
    var e := if dot <= 1 then |name| else dot - 1;
    if e > 0 && IsCompression(name[e..]) then
      var inner := AfterLast(name[..e], '.');
      if inner > 0 && name[inner..e] == "tar" then inner - 1 else e
    else e
  }

  datatype Parts = Parts(dir: string, stem: string, ext: string)

  function Split(path: string): Parts {
    var slash := AfterLast(path, '/');
    var name := path[slash..];
    Parts(path[..slash], name[..ExtensionAt(name)], name[ExtensionAt(name)..])
  }

  function Numbered(path: string, k: nat): string {
    var p := Split(path);
    p.dir + p.stem + "(" + Decimal(k) + ")" + p.ext
  }

  /** The parts put together are the path; the directory ends at the last slash, the extension is
      empty or starts with a dot. */
  lemma PartsMakePath(path: string)
    ensures var p := Split(path);
      && p.dir + (p.stem + p.ext) == path
      && '/' !in p.stem + p.ext
      && (p.dir != "" ==> p.dir[|p.dir| - 1] == '/')
      && (p.ext != "" ==> p.ext[0] == '.')
  {
    var slash := AfterLast(path, '/');
    var name := path[slash..];
    CutAndJoin(path, slash);
    CutAndJoin(name, ExtensionAt(name));
    DotStarts(name);
  }

  lemma DotStarts(name: string)
    ensures ExtensionAt(name) < |name| ==> name[ExtensionAt(name)] == '.'
  {
  }

  lemma CutAndJoin(s: string, n: nat)
    requires n <= |s|
    ensures s[..n] + s[n..] == s
  {
  }

  /** The tar suffixes stay together. */
  lemma TarSuffixKept(dir: string, base: string, suffix: string)
    requires suffix in {".gz", ".bz2", ".xz", ".zst"} && '/' !in base && (dir == "" || dir[|dir| - 1] == '/')
    ensures Split(dir + (base + (".tar" + suffix))) == Parts(dir, base, ".tar" + suffix)
  {
    var tail := ".tar" + suffix;
    assert '/' !in tail by { CompressionIs(suffix); }
    TarExtension(base, suffix);
    SplitAt(dir, base, tail);
  }

  /** An extension is split off: what starts at the last dot of a name that does not start with it, unless a tar
      suffix is longer. */
  lemma ExtensionKept(dir: string, stem: string, ext: string)
    requires '/' !in stem && '/' !in ext && (dir == "" || dir[|dir| - 1] == '/')
    requires stem != "" && ext != "" && ext[0] == '.' && '.' !in ext[1..]
    requires ext in {".gz", ".bz2", ".xz", ".zst"} ==> |stem| < 4 || stem[|stem| - 4..] != ".tar"
    ensures Split(dir + (stem + ext)) == Parts(dir, stem, ext)
  {
    var name := stem + ext;
    assert name[|stem|] == ext[0] && name[|stem|..] == ext && name[..|stem|] == stem;
    forall i | |stem| + 1 <= i < |name| ensures name[i] != '.' { assert name[i] == ext[1..][i - |stem| - 1]; }
    AfterLastIs(name, '.', |stem| + 1);
    if IsCompression(ext) { NoTarBefore(stem); }
    SplitAt(dir, stem, ext);
  }

  lemma NoTarBefore(stem: string)
    requires |stem| < 4 || stem[|stem| - 4..] != ".tar"
    ensures var inner := AfterLast(stem, '.'); !(inner > 0 && stem[inner..] == "tar")
  {
    var inner := AfterLast(stem, '.');
    if inner > 0 && stem[inner..] == "tar" { DotAndTar(stem, inner - 1); }
  }

  lemma DotAndTar(s: string, n: nat)
    requires n < |s| && s[n] == '.' && s[n + 1..] == "tar"
    ensures |s| == n + 4 && s[n..] == ".tar"
  {
    assert s[n..] == [s[n]] + s[n + 1..];
  }

  /** A name without a dot past its first character has no extension. */
  lemma NoExtension(dir: string, name: string)
    requires '/' !in name && (dir == "" || dir[|dir| - 1] == '/') && (name == "" || '.' !in name[1..])
    ensures Split(dir + name) == Parts(dir, name, "")
  {
    if name != "" {
      forall i | 1 <= i < |name| ensures name[i] != '.' { assert name[i] == name[1..][i - 1]; }
      AfterLastIs(name, '.', if name[0] == '.' then 1 else 0);
    }
    assert name + "" == name;
    SplitAt(dir, name, "");
  }

  /** The number goes before the extension. */
  lemma NumberBeforeExtension(dir: string, stem: string, ext: string, k: nat)
    requires '/' !in stem && '/' !in ext && (dir == "" || dir[|dir| - 1] == '/')
    requires stem != "" && ext != "" && ext[0] == '.' && '.' !in ext[1..]
    requires ext in {".gz", ".bz2", ".xz", ".zst"} ==> |stem| < 4 || stem[|stem| - 4..] != ".tar"
    ensures Numbered(dir + (stem + ext), k) == dir + stem + "(" + Decimal(k) + ")" + ext
  {
    ExtensionKept(dir, stem, ext);
  }

  lemma SplitAt(dir: string, base: string, tail: string)
    requires '/' !in base && '/' !in tail && (dir == "" || dir[|dir| - 1] == '/')
    requires ExtensionAt(base + tail) == |base|
    ensures Split(dir + (base + tail)) == Parts(dir, base, tail)
  {
    var name := base + tail;
    var path := dir + name;
    assert path[|dir|..] == name && path[..|dir|] == dir;
    forall i | |dir| <= i < |path| ensures path[i] != '/' { assert path[i] == name[i - |dir|] && name[i - |dir|] in name; }
    AfterLastIs(path, '/', |dir|);
    assert name[..|base|] == base && name[|base|..] == tail;
  }

  lemma CompressionIs(suffix: string)
    requires IsCompression(suffix)
    ensures suffix != "" && suffix[0] == '.' && '/' !in suffix && '.' !in suffix[1..]
  {
  }

  lemma TarExtension(base: string, suffix: string)
    requires IsCompression(suffix)
    ensures ExtensionAt(base + (".tar" + suffix)) == |base|
  {
    var tail := ".tar" + suffix;
    var name := base + tail;
    var e := |base| + 4;
    CompressionIs(suffix);
    DotOfTar(base, suffix);
    assert name[e..] == tail[4..] == suffix;
    assert name[..e] == base + tail[..4];
    assert name[|base| + 1..e] == tail[1..4] == "tar";
  }

  lemma DotOfTar(base: string, suffix: string)
    requires suffix != "" && suffix[0] == '.' && '.' !in suffix[1..]
    ensures var name := base + (".tar" + suffix);
      AfterLast(name, '.') == |base| + 5 && AfterLast(name[..|base| + 4], '.') == |base| + 1
  {
    var tail := ".tar" + suffix;
    var name := base + tail;
    var e := |base| + 4;
    assert name[e] == tail[4] == suffix[0];
    forall i | e + 1 <= i < |name| ensures name[i] != '.' {
      assert name[i] == tail[i - |base|] == suffix[i - e] == suffix[1..][i - e - 1];
    }
    AfterLastIs(name, '.', e + 1);
    assert name[|base|] == tail[0];
    forall i | |base| + 1 <= i < e ensures name[i] != '.' { assert name[i] == ".tar"[i - |base|]; }
    AfterLastIs(name[..e], '.', |base| + 1);
  }

  lemma {:induction false} AfterLastIs(s: string, c: char, n: nat)
    requires n <= |s| && (n > 0 ==> s[n - 1] == c) && forall i :: n <= i < |s| ==> s[i] != c
    ensures AfterLast(s, c) == n
  {
  }

  /** Different numbers give different names. */
  lemma NumberedInjective(path: string, j: nat, k: nat)
    requires Numbered(path, j) == Numbered(path, k)
    ensures j == k
  {
    var p := Split(path);
    var a := p.dir + p.stem + "(";
    Regroup(a, Decimal(j), ")", p.ext);
    Regroup(a, Decimal(k), ")", p.ext);
    SameMiddle(a, Decimal(j), Decimal(k), ")" + p.ext);
    DecimalInjective(j, k);
  }

  lemma Regroup(a: string, b: string, c: string, d: string)
    ensures a + b + c + d == a + (b + (c + d))
  {
  }

  lemma SameMiddle(a: string, n: string, m: string, z: string)
    requires a + (n + z) == a + (m + z)
    ensures n == m
  {
    assert |n| == |m|;
    assert (a + (n + z))[|a|..] == n + z && (a + (m + z))[|a|..] == m + z;
    assert (n + z)[..|n|] == n && (m + z)[..|n|] == m;
  }

  // ----- the search -----

  /** The first number from `k` on whose name is free, if its name and those before it fit. */
  function FirstFree(path: string, taken: set<string>, size: nat, k: nat): Option<string>
    decreases LAST - k
  {
    if k >= LAST || |Numbered(path, k)| >= size then None
    else if Numbered(path, k) !in taken then Some(Numbered(path, k))
    else FirstFree(path, taken, size, k + 1)
  }

  function Unique(path: string, taken: set<string>, size: nat): Option<string> {
    if size == 0 then None
    else if path !in taken then if |path| >= size then None else Some(path)
    else FirstFree(path, taken, size, 1)
  }

  ghost predicate LeastFree(path: string, taken: set<string>, from: nat, k: nat) {
    && from <= k < LAST && Numbered(path, k) !in taken
    && forall j :: from <= j < k ==> Numbered(path, j) in taken
  }

  lemma {:induction false} FirstFreeIs(path: string, taken: set<string>, size: nat, from: nat)
    ensures match FirstFree(path, taken, size, from)
      case Some(out) => |out| < size && exists k :: LeastFree(path, taken, from, k) && out == Numbered(path, k)
      case None => exists k :: Blocked(path, taken, size, from, k)
    decreases LAST - from
  {
    if from >= LAST || |Numbered(path, from)| >= size {
      assert Blocked(path, taken, size, from, from);
    } else if Numbered(path, from) !in taken {
      assert LeastFree(path, taken, from, from);
    } else {
      FirstFreeIs(path, taken, size, from + 1);
      if FirstFree(path, taken, size, from).Some? {
        var k :| LeastFree(path, taken, from + 1, k) && FirstFree(path, taken, size, from) == Some(Numbered(path, k));
        assert LeastFree(path, taken, from, k);
      } else {
        var k :| Blocked(path, taken, size, from + 1, k);
        assert Blocked(path, taken, size, from, k);
      }
    }
  }

  /** Every number before `k` is taken, and `k` is past the last number or its name does not fit. */
  ghost predicate Blocked(path: string, taken: set<string>, size: nat, from: nat, k: nat) {
    from <= k && (k >= LAST || |Numbered(path, k)| >= size) &&
    forall j :: from <= j < k && j < LAST ==> Numbered(path, j) in taken
  }

  /** What is chosen: the path itself when it is free, else the least number that is. */
  lemma UniqueIsLeast(path: string, taken: set<string>, size: nat)
    ensures match Unique(path, taken, size)
      case Some(out) =>
        && out !in taken && |out| < size
        && (if path !in taken then out == path
            else exists k :: LeastFree(path, taken, 1, k) && out == Numbered(path, k))
      case None =>
        || size == 0
        || (path !in taken && |path| >= size)
        || (path in taken && exists k :: Blocked(path, taken, size, 1, k))
  {
    FirstFreeIs(path, taken, size, 1);
  }

  /** With fewer than 999999 existing files and room for the name, a free name is always found. */
  lemma EnoughNumbers(path: string, taken: set<string>, size: nat)
    requires |taken| < 999999 && |path| < size
    requires forall k :: 1 <= k < 1000000 ==> |Numbered(path, k)| < size
    ensures Unique(path, taken, size).Some?
  {
    if path in taken {
      FirstFreeIs(path, taken, size, 1);
      if FirstFree(path, taken, size, 1).None? {
        var k :| Blocked(path, taken, size, 1, k);
        forall x | x in Names(path, LAST) ensures x in taken {
          var j :| 1 <= j < LAST && x == Numbered(path, j);
        }
        NamesCount(path, LAST);
        SubsetSize(Names(path, LAST), taken);
        assert false;
      }
    }
  }

  /** The names numbered 1 up to, but not including, `n`. */
  function Names(path: string, n: nat): set<string> {
    set k | 1 <= k < n :: Numbered(path, k)
  }

  function NameOf(path: string): nat -> string { (k: nat) => Numbered(path, k) }

  lemma NamesCount(path: string, n: nat)
    requires n >= 1
    ensures |Names(path, n)| == n - 1
  {
    forall j: nat, k: nat | j < k < n ensures NameOf(path)(j) != NameOf(path)(k) { NamesDiffer(path, j, k); }
    CountImages(NameOf(path), n);
    NamesAreImages(path, n);
  }

  lemma NamesDiffer(path: string, j: nat, k: nat)
    requires j != k
    ensures NameOf(path)(j) != NameOf(path)(k)
  {
    if NameOf(path)(j) == NameOf(path)(k) { NumberedInjective(path, j, k); }
  }

  lemma NamesAreImages(path: string, n: nat)
    ensures Names(path, n) == Images(NameOf(path), n)
  {
    forall x ensures x in Names(path, n) <==> x in Images(NameOf(path), n) {
      if x in Names(path, n) {
        var k: nat :| 1 <= k < n && x == Numbered(path, k);
        assert x == NameOf(path)(k);
      }
    }
  }

  function Images(f: nat -> string, n: nat): (s: set<string>)
    ensures forall x :: x in s <==> exists k: nat :: 1 <= k < n && x == f(k)
  {
    if n <= 1 then {} else Images(f, n - 1) + {f(n - 1)}
  }

  lemma {:induction false} CountImages(f: nat -> string, n: nat)
    requires n >= 1 && forall j: nat, k: nat :: j < k < n ==> f(j) != f(k)
    ensures |Images(f, n)| == n - 1
  {
    if n > 1 {
      CountImages(f, n - 1);
      assert f(n - 1) !in Images(f, n - 1);
    }
  }

  lemma {:induction false} SubsetSize<T>(a: set<T>, b: set<T>)
    requires a <= b
    ensures |a| <= |b|
    decreases |a|
  {
    if a != {} {
      var x :| x in a;
      SubsetSize(a - {x}, b - {x});
    }
  }

  // ----- the code -----

  /** `strrchr`, as one past the position found. */
  method FindLast(s: string, c: char) returns (n: nat)
    ensures n == AfterLast(s, c)
  {
    n := |s|;
    while n > 0 && s[n - 1] != c
      invariant 0 <= n <= |s|
      invariant AfterLast(s, c) == AfterLast(s[..n], c)
    {
      assert s[..n][..n - 1] == s[..n - 1];
      n := n - 1;
    }
    assert s[..|s|] == s;
  }

  /** The scan back from `e` to the dot before it. */
  method DotBefore(name: string, e: nat) returns (d: nat)
    requires e <= |name|
    ensures d == AfterLast(name[..e], '.')
  {
    d := e;
    while d > 0 && name[d - 1] != '.'
      invariant 0 <= d <= e
      invariant AfterLast(name[..e], '.') == AfterLast(name[..d], '.')
    {
      assert name[..d][..d - 1] == name[..d - 1];
      d := d - 1;
    }
  }

  /** The search for the extension. */
  method FindExtension(name: string) returns (e: nat)
    ensures e == ExtensionAt(name)
  {
    var dot := FindLast(name, '.');
    e := if dot <= 1 then |name| else dot - 1;
    if e > 0 && IsCompression(name[e..]) {
      var d := DotBefore(name, e);
      if d > 0 && e - d == 3 && name[d..d + 3] == "tar" {
        e := d - 1;
      }
    }
  }

  /** `path_make_unique`; `taken` is what exists. */
  method MakeUnique(path: string, taken: set<string>, size: nat) returns (out: Option<string>)
    ensures out == Unique(path, taken, size)
  {
    if size == 0 {
      return None;
    }
    if path !in taken {
      return if |path| >= size then None else Some(path);
    }
    var slash := FindLast(path, '/');
    var name := path[slash..];
    var e := FindExtension(name);
    var suffix := 1;
    while suffix < LAST
      invariant 1 <= suffix <= LAST
      invariant FirstFree(path, taken, size, 1) == FirstFree(path, taken, size, suffix)
    {
      var candidate := path[..slash] + name[..e] + "(" + Decimal(suffix) + ")" + name[e..];
      assert candidate == Numbered(path, suffix);
      if |candidate| >= size {
        return None;
      }
      if candidate !in taken {
        return Some(candidate);
      }
      suffix := suffix + 1;
    }
    out := None;
  }

  // ----- the reservation -----

  const PATH_SIZE := 1024

  datatype Entry = Entry(id: nat, path: string, reserved: bool)

  /** What the surroundings do in one round: files that other programs create and delete between the
      choice and the claim, whether the queue accepts the path, whether the file can be created, and
      whether its row is stored. */
  datatype Round = Round(appear: set<string>, vanish: set<string>, accepts: bool, creatable: bool, stored: bool)

  /** How a reservation ends: with `path` created in round `round` where only `before` existed, or
      without, leaving `files` and having used up `ids` queue ids. */
  datatype Outcome =
    | Made(path: string, before: set<string>, round: nat)
    | NotMade(files: set<string>, ids: nat)

  /** What exists when the file is to be created. */
  function Meanwhile(files: set<string>, round: Round): set<string> { (files + round.appear) - round.vanish }

  /** The rounds from number `n` on. */
  function Reserved(dest: string, files: set<string>, rounds: nat -> Round, n: nat): Outcome
    decreases LAST - n
  {
    if n >= LAST then NotMade(files, n)
    else
      var unique, now := Unique(dest, files, PATH_SIZE), Meanwhile(files, rounds(n));
      if unique.None? || !rounds(n).accepts then NotMade(files, n)
      else if unique.value in now then Reserved(dest, now - {unique.value}, rounds, n + 1)
      else if rounds(n).creatable && rounds(n).stored then Made(unique.value, now, n)
      else NotMade(now, n + 1)
  }

  /** What exists when round `n` starts, every earlier one having found its path taken meanwhile. */
  function FilesAt(dest: string, files: set<string>, rounds: nat -> Round, n: nat): set<string> {
    if n == 0 then files
    else
      var before := FilesAt(dest, files, rounds, n - 1);
      var unique := Unique(dest, before, PATH_SIZE);
      Meanwhile(before, rounds(n - 1)) - if unique.Some? then {unique.value} else {}
  }

  /** The queue takes the path chosen in round `n`. */
  predicate Chosen(dest: string, files: set<string>, rounds: nat -> Round, n: nat) {
    Unique(dest, FilesAt(dest, files, rounds, n), PATH_SIZE).Some? && rounds(n).accepts
  }

  /** Meanwhile the path chosen in round `n` has been taken. */
  predicate LostRace(dest: string, files: set<string>, rounds: nat -> Round, n: nat) {
    var at := FilesAt(dest, files, rounds, n);
    Chosen(dest, files, rounds, n) && Unique(dest, at, PATH_SIZE).value in Meanwhile(at, rounds(n))
  }

  /** The chosen path is free still, and the file and its row can be made. */
  predicate WonRace(dest: string, files: set<string>, rounds: nat -> Round, n: nat) {
    var at := FilesAt(dest, files, rounds, n);
    && Chosen(dest, files, rounds, n) && Unique(dest, at, PATH_SIZE).value !in Meanwhile(at, rounds(n))
    && rounds(n).creatable && rounds(n).stored
  }

  lemma ReservedFrom(dest: string, files: set<string>, rounds: nat -> Round, n: nat, m: nat)
    requires n <= m <= LAST && forall j :: n <= j < m ==> LostRace(dest, files, rounds, j)
    ensures Reserved(dest, FilesAt(dest, files, rounds, n), rounds, n)
         == Reserved(dest, FilesAt(dest, files, rounds, m), rounds, m)
  {
    forall j: nat | n <= j < m ensures Stages(dest, files, rounds)(j) == Stages(dest, files, rounds)(j + 1) {
      ReservedNext(dest, files, rounds, j);
    }
    SameThroughout(Stages(dest, files, rounds), n, m);
  }

  /** What round `j` and those after it come to, when every earlier one lost its race. */
  function Stages(dest: string, files: set<string>, rounds: nat -> Round): nat -> Outcome {
    (j: nat) => Reserved(dest, FilesAt(dest, files, rounds, j), rounds, j)
  }

  lemma {:induction false} SameThroughout(f: nat -> Outcome, n: nat, m: nat)
    requires n <= m && forall j :: n <= j < m ==> f(j) == f(j + 1)
    ensures f(n) == f(m)
    decreases m - n
  {
    if n < m { SameThroughout(f, n + 1, m); }
  }

  lemma ReservedNext(dest: string, files: set<string>, rounds: nat -> Round, n: nat)
    requires n < LAST && LostRace(dest, files, rounds, n)
    ensures Stages(dest, files, rounds)(n) == Stages(dest, files, rounds)(n + 1)
  {
  }

  /** The round in which the races end; LAST when all are lost. */
  function FirstUnlost(dest: string, files: set<string>, rounds: nat -> Round, n: nat): (m: nat)
    requires n <= LAST
    ensures n <= m <= LAST && forall j :: n <= j < m ==> LostRace(dest, files, rounds, j)
    ensures m < LAST ==> !LostRace(dest, files, rounds, m)
    decreases LAST - n
  {
    if n < LAST && LostRace(dest, files, rounds, n) then FirstUnlost(dest, files, rounds, n + 1) else n
  }

  /** A reservation is made in round `n` exactly when every earlier round lost its race and this one
      is won; then the file is new: of all that the other programs had left, none had its path. */
  lemma ReservedExact(dest: string, files: set<string>, rounds: nat -> Round, n: nat)
    ensures var at := FilesAt(dest, files, rounds, n);
      (exists path, before :: Reserved(dest, files, rounds, 0) == Made(path, before, n))
      <==> n < LAST && WonRace(dest, files, rounds, n) && forall j :: 0 <= j < n ==> LostRace(dest, files, rounds, j)
    ensures forall path, before :: Reserved(dest, files, rounds, 0) == Made(path, before, n) ==>
      && before == Meanwhile(FilesAt(dest, files, rounds, n), rounds(n)) && path !in before
      && path !in FilesAt(dest, files, rounds, n) && |path| < 1024
      && (path == dest || exists k :: 1 <= k < LAST && path == Numbered(dest, k))
  {
    var m := FirstUnlost(dest, files, rounds, 0);
    ReservedFrom(dest, files, rounds, 0, m);
    UniqueIsLeast(dest, FilesAt(dest, files, rounds, m), PATH_SIZE);
    var r := Reserved(dest, FilesAt(dest, files, rounds, m), rounds, m);
    if n < m {
      assert LostRace(dest, files, rounds, n);
    } else if n == m < LAST && WonRace(dest, files, rounds, n) {
      assert r == Made(r.path, r.before, n);
    }
  }

  // ----- the files of other programs -----

  /** A round leaves the files of other programs alone exactly when it does not lose its race. */
  lemma RoundKeepsOthers(dest: string, files: set<string>, rounds: nat -> Round, n: nat)
    requires Chosen(dest, files, rounds, n)
    ensures FilesAt(dest, files, rounds, n + 1) == Meanwhile(FilesAt(dest, files, rounds, n), rounds(n))
      <==> !LostRace(dest, files, rounds, n)
  {
    var now := Meanwhile(FilesAt(dest, files, rounds, n), rounds(n));
    Without(now, Unique(dest, FilesAt(dest, files, rounds, n), PATH_SIZE).value);
  }

  lemma Without(s: set<string>, path: string)
    ensures s - {path} == s <==> path !in s
  {
    assert path !in s - {path};
  }

  /** A lost race costs the other program its file: withdrawing the queue entry deletes the path that
      the entry names. With nothing else changed, the next round starts where this one did. */
  lemma LostRaceDeletes(dest: string, files: set<string>, rounds: nat -> Round, n: nat)
    requires LostRace(dest, files, rounds, n)
    ensures var at := FilesAt(dest, files, rounds, n);
      var path := Unique(dest, at, PATH_SIZE).value;
      && path !in at && path in Meanwhile(at, rounds(n)) && path !in FilesAt(dest, files, rounds, n + 1)
      && (rounds(n).appear == {path} && rounds(n).vanish == {} ==> FilesAt(dest, files, rounds, n + 1) == at)
  {
    UniqueIsLeast(dest, FilesAt(dest, files, rounds, n), PATH_SIZE);
  }

  /** The number of rounds in which other programs have had their turn. */
  function Turns(o: Outcome): nat {
    match o
    case Made(_, _, n) => n + 1
    case NotMade(_, ids) => ids
  }

  /** What is there in the end but for the file the call created. */
  function Others(o: Outcome): set<string> {
    match o
    case Made(_, before, _) => before
    case NotMade(left, _) => left
  }

  /** What the other programs alone would have left after `n` rounds. */
  function Alone(files: set<string>, rounds: nat -> Round, n: nat): set<string> {
    if n == 0 then files else Meanwhile(Alone(files, rounds, n - 1), rounds(n - 1))
  }

  /** The path that round `n` chose. */
  function ChosenPath(dest: string, files: set<string>, rounds: nat -> Round, n: nat): string {
    var unique := Unique(dest, FilesAt(dest, files, rounds, n), PATH_SIZE);
    if unique.Some? then unique.value else ""
  }

  predicate Touched(rounds: nat -> Round, i: nat, path: string) {
    path in rounds(i).appear || path in rounds(i).vanish
  }

  /** Some other program has created or deleted the path between rounds `n` and `k`. */
  ghost predicate TouchedAgain(rounds: nat -> Round, n: nat, k: nat, path: string) {
    exists i :: n < i < k && Touched(rounds, i, path)
  }

  /** Before round `k` the path was lost in a race and no one has touched it since. */
  ghost predicate Lost(dest: string, files: set<string>, rounds: nat -> Round, m: nat, k: nat, path: string) {
    exists j :: 0 <= j < m && path == ChosenPath(dest, files, rounds, j) && !TouchedAgain(rounds, j, k, path)
  }

  /** One round of the other programs makes no difference to what is missing, but for the paths it touches. */
  lemma MissingRound(at: set<string>, alone: set<string>, round: Round, path: string)
    requires path in at ==> path in alone
    ensures path in Meanwhile(at, round) ==> path in Meanwhile(alone, round)
    ensures path in Meanwhile(alone, round) && path !in Meanwhile(at, round)
      <==> path in alone && path !in at && path !in round.appear && path !in round.vanish
  {
  }

  lemma LostRound(dest: string, files: set<string>, rounds: nat -> Round, m: nat, k: nat, path: string)
    requires m <= k
    ensures Lost(dest, files, rounds, m, k + 1, path)
      <==> Lost(dest, files, rounds, m, k, path) && (m > 0 ==> !Touched(rounds, k, path))
  {
    forall j | 0 <= j < m
      ensures TouchedAgain(rounds, j, k + 1, path) <==> TouchedAgain(rounds, j, k, path) || Touched(rounds, k, path)
    {
      TouchedRound(rounds, j, k, path);
    }
  }

  lemma TouchedRound(rounds: nat -> Round, n: nat, k: nat, path: string)
    requires n < k
    ensures TouchedAgain(rounds, n, k + 1, path) <==> TouchedAgain(rounds, n, k, path) || Touched(rounds, k, path)
  {
  }

  lemma LostLast(dest: string, files: set<string>, rounds: nat -> Round, m: nat, path: string)
    ensures Lost(dest, files, rounds, m + 1, m + 1, path)
      <==> Lost(dest, files, rounds, m, m + 1, path) || path == ChosenPath(dest, files, rounds, m)
  {
    if path == ChosenPath(dest, files, rounds, m) { assert !TouchedAgain(rounds, m, m + 1, path); }
  }

  /** Losing only takes away, and only what no one has touched since. */
  lemma {:induction false} MissingExactly(dest: string, files: set<string>, rounds: nat -> Round, m: nat, path: string)
    requires forall j :: 0 <= j < m ==> LostRace(dest, files, rounds, j)
    ensures path in FilesAt(dest, files, rounds, m) ==> path in Alone(files, rounds, m)
    ensures path in Alone(files, rounds, m) && path !in FilesAt(dest, files, rounds, m)
      <==> Lost(dest, files, rounds, m, m, path)
  {
    if m > 0 {
      var n := m - 1;
      MissingExactly(dest, files, rounds, n, path);
      LostLast(dest, files, rounds, n, path);
      LostRound(dest, files, rounds, n, n, path);
      MissingRound(FilesAt(dest, files, rounds, n), Alone(files, rounds, n), rounds(n), path);
      LostStep(dest, files, rounds, n, path);
    }
  }

  lemma LostStep(dest: string, files: set<string>, rounds: nat -> Round, n: nat, path: string)
    requires LostRace(dest, files, rounds, n)
    ensures path in FilesAt(dest, files, rounds, n + 1)
      <==> path in Meanwhile(FilesAt(dest, files, rounds, n), rounds(n)) && path != ChosenPath(dest, files, rounds, n)
    ensures ChosenPath(dest, files, rounds, n) in Meanwhile(FilesAt(dest, files, rounds, n), rounds(n))
  {
  }

  /** How a call ends after `m` lost races. */
  lemma EndsAfter(dest: string, files: set<string>, rounds: nat -> Round)
    ensures var m, o := FirstUnlost(dest, files, rounds, 0), Reserved(dest, files, rounds, 0);
      || (Turns(o) == m && Others(o) == FilesAt(dest, files, rounds, m))
      || (Turns(o) == m + 1 && Others(o) == Meanwhile(FilesAt(dest, files, rounds, m), rounds(m)))
  {
    ReservedFrom(dest, files, rounds, 0, FirstUnlost(dest, files, rounds, 0));
  }

  /** Of a whole call: in the end the files of the other programs are as if it had deleted none of them exactly
      when every path on which it lost a race has been created or deleted again by another program since. In
      particular they are so when the first round does not lose its race, for then no round does. */
  lemma OthersKeptExactly(dest: string, files: set<string>, rounds: nat -> Round)
    ensures var m, o := FirstUnlost(dest, files, rounds, 0), Reserved(dest, files, rounds, 0);
      Others(o) == Alone(files, rounds, Turns(o))
      <==> forall j :: 0 <= j < m ==> TouchedAgain(rounds, j, Turns(o), ChosenPath(dest, files, rounds, j))
    ensures FirstUnlost(dest, files, rounds, 0) == 0 <==> !LostRace(dest, files, rounds, 0)
  {
    var m, o := FirstUnlost(dest, files, rounds, 0), Reserved(dest, files, rounds, 0);
    EndsAfter(dest, files, rounds);
    forall path ensures path in Others(o) ==> path in Alone(files, rounds, Turns(o))
      ensures path in Alone(files, rounds, Turns(o)) && path !in Others(o) <==> Lost(dest, files, rounds, m, Turns(o), path)
    {
      MissingExactly(dest, files, rounds, m, path);
      LostRound(dest, files, rounds, m, m, path);
      MissingRound(FilesAt(dest, files, rounds, m), Alone(files, rounds, m), rounds(m), path);
    }
    forall j | 0 <= j < m
      ensures TouchedAgain(rounds, j, Turns(o), ChosenPath(dest, files, rounds, j))
           || Lost(dest, files, rounds, m, Turns(o), ChosenPath(dest, files, rounds, j))
    {
    }
  }

  class Reserver {
    var files: set<string>
    var queue: seq<Entry>
    var nextId: nat

    constructor (f: set<string>, q: seq<Entry>, n: nat)
      ensures files == f && queue == q && nextId == n
    {
      files, queue, nextId := f, q, n;
    }

    /** `queue_manager_add`; 0 is a refusal. */
    method Add(path: string, accepts: bool) returns (id: nat)
      requires nextId >= 1
      modifies this`queue, this`nextId
      ensures !accepts ==> id == 0 && queue == old(queue) && nextId == old(nextId)
      ensures accepts ==> id == old(nextId) && queue == [Entry(id, path, false)] + old(queue) && nextId == old(nextId) + 1
    {
      id := 0;
      if accepts {
        id := nextId;
        nextId := nextId + 1;
        queue := [Entry(id, path, false)] + queue;
      }
    }

    /** `queue_manager_remove` of an entry no worker has: it also deletes the destination. */
    method Remove(id: nat)
      modifies this`queue, this`files
      ensures |old(queue)| > 0 && old(queue)[0].id == id ==>
        queue == old(queue)[1..] && files == old(files) - {old(queue)[0].path}
    {
      var j := 0;
      while j < |queue| && queue[j].id != id
        invariant 0 <= j <= |queue|
        invariant j > 0 ==> queue[0].id != id
      {
        j := j + 1;
      }
      if j < |queue| {
        files := files - {queue[j].path};
        queue := queue[..j] + queue[j + 1..];
      }
    }

    /** `reserve_download`: the download's entry heads the queue and its file has been created where
        there was none, or the queue is as it was. Of the files of other programs those are gone on which
        the call lost a race (`OthersKeptExactly`). */
    method Reserve(dest: string, rounds: nat -> Round) returns (id: nat)
      requires 1 <= nextId < 0x1_0000_0000 - LAST
      modifies this
      ensures EndsAs(Reserved(dest, old(files), rounds, 0), id, old(queue), old(nextId))
    {
      id := 0;
      var attempt := 0;
      var ended := false;
      ghost var goal := Reserved(dest, files, rounds, 0);
      while attempt < LAST && !ended
        invariant 0 <= attempt <= LAST
        invariant !ended ==> nextId == old(nextId) + attempt && id == 0 && queue == old(queue)
        invariant !ended ==> Reserved(dest, files, rounds, attempt) == goal
        invariant ended ==> EndsAs(goal, id, old(queue), old(nextId))
      {
        id, ended := Attempt(dest, rounds, attempt, goal);
        attempt := attempt + 1;
      }
    }

    /** What the fields and the result are when a reservation ends. */
    ghost predicate EndsAs(o: Outcome, id: nat, before: seq<Entry>, firstId: nat)
      reads this
    {
      match o
      case Made(path, there, n) =>
        && id == firstId + n && nextId == id + 1
        && queue == [Entry(id, path, true)] + before && files == there + {path} && path !in there
      case NotMade(left, ids) => id == 0 && nextId == firstId + ids && queue == before && files == left
    }

    /** The round `attempt`. */
    method Attempt(dest: string, rounds: nat -> Round, attempt: nat, ghost goal: Outcome) returns (id: nat, ended: bool)
      requires attempt < LAST && attempt < nextId && Reserved(dest, files, rounds, attempt) == goal
      modifies this
      ensures if ended then EndsAs(goal, id, old(queue), old(nextId) - attempt)
        else id == 0 && nextId == old(nextId) + 1 && queue == old(queue) && Reserved(dest, files, rounds, attempt + 1) == goal
    {
      id := 0;
      var unique := MakeUnique(dest, files, PATH_SIZE);
      if unique.None? {
        return 0, true;
      }
      id := Add(unique.value, rounds(attempt).accepts);
      if id == 0 {
        return 0, true;
      }
      var claim := Claim(id, unique.value, rounds(attempt));
      ended := claim != -2;
      if claim != 0 {
        id := 0;
      }
    }

    /** What a round does once the queue has the path: 0 when file and row are made, -2 when the file exists, -1 on
        any other failure; but for 0 the entry is withdrawn. */
    method Claim(id: nat, path: string, round: Round) returns (claim: int)
      requires queue != [] && queue[0] == Entry(id, path, false)
      modifies this`files, this`queue
      ensures var now := Meanwhile(old(files), round);
        && claim == (if path in now then -2 else if round.creatable && round.stored then 0 else -1)
        && files == (if claim == 0 then now + {path} else now - {path})
        && queue == if claim == 0 then [Entry(id, path, true)] + old(queue[1..]) else old(queue[1..])
    {
      files := Meanwhile(files, round);
      // an exclusive create
      claim := if path in files then -2 else if round.creatable then 0 else -1;
      if claim == 0 {
        files := files + {path};
        queue := [queue[0].(reserved := true)] + queue[1..];
        if round.stored {
          return;
        }
        files := files - {path};
        claim := -1;
      }
      Remove(id);
    }
  }
}
