/**
 * Folder names and folder references: the name rules, the default name made
 * from a domain, collision suffixes, and host paths.
 */
module FolderNames {
  import opened Strings
  import Sha256

  const FOLDER_NAME_MAX_LENGTH := 63
  const DEFAULT_NAME_CUT_LENGTH := 54
  const DEFAULT_NAME_HASH_LENGTH := 8
  const COLLISION_SUFFIX_MIN := 2
  const COLLISION_SUFFIX_MAX := 99

  // ---------------------------------------------------------------- alphabets and name rules

  predicate IsLower(c: char) {
    'a' <= c <= 'z'
  }

  predicate IsAlnum(c: char) {
    IsLower(c) || IsDigit(c)
  }

  predicate IsSeparator(c: char) {
    c == '.' || c == '-' || c == '_'
  }

  predicate IsFolderChar(c: char) {
    IsAlnum(c) || IsSeparator(c)
  }

  predicate FolderChars(s: string) {
    forall i :: 0 <= i < |s| ==> IsFolderChar(s[i])
  }

  predicate NoDotDot(s: string) {
    forall i :: 0 <= i < |s| - 1 ==> !(s[i] == '.' && s[i + 1] == '.')
  }

  /** `isValidFolderName`: one to 63 folder characters, alphanumeric ends, no `..` inside. */
  predicate ValidFolderName(s: string) {
    && 1 <= |s| <= FOLDER_NAME_MAX_LENGTH
    && IsAlnum(s[0]) && IsAlnum(s[|s| - 1])
    && FolderChars(s)
    && NoDotDot(s)
  }

  predicate EndsWith(s: string, suffix: string) {
    |suffix| <= |s| && s[|s| - |suffix|..] == suffix
  }

  predicate WordChars(s: string) {
    forall i :: 0 <= i < |s| ==> IsAlnum(s[i]) || s[i] == '_' || s[i] == '-'
  }

  /** `isValidOwnerName` */
  predicate ValidOwnerName(s: string) {
    && 1 <= |s| <= 28 && (IsLower(s[0]) || s[0] == '_') && WordChars(s)
    && s[|s| - 1] != '-' && (forall i :: 0 <= i < |s| - 1 ==> !(s[i] == '-' && s[i + 1] == '-'))
    && !StartsWith(s, "tp") && !StartsWith(s, "systemd-")
    && !EndsWith(s, "-grp")
  }

  const COMMON_SCOPE: string := "common"

  const RESERVED_SCOPE_NAMES: set<string> := {
    "common", "home", "tmp", "services", "volumes", "data", "sites", "backup", "backups", "logs", "cache", "run",
    "var", "etc", "bin", "root", "public", "releases", "current", "shared", "lost-found", "tmp-staging", "base"}

  /** `isValidEnvironmentName` */
  predicate ValidEnvironmentName(s: string) {
    1 <= |s| <= 32 && IsAlnum(s[0]) && WordChars(s) && s !in RESERVED_SCOPE_NAMES
  }

  /** `isValidScope` */
  predicate ValidScope(s: string) {
    s == COMMON_SCOPE || ValidEnvironmentName(s)
  }

  // ---------------------------------------------------------------- trimEdgeSeparators

  function TrimStart(s: string): string {
    if s != "" && IsSeparator(s[0]) then TrimStart(s[1..]) else s
  }

  function TrimEnd(s: string): string {
    if s != "" && IsSeparator(s[|s| - 1]) then TrimEnd(s[..|s| - 1]) else s
  }

  function TrimEdges(s: string): string {
    TrimEnd(TrimStart(s))
  }

  /** What is kept is a piece of the text without separators at its ends; what is cut is separators only. */
  lemma {:induction false} TrimEndKeeps(s: string) returns (end: nat)
    ensures end <= |s| && TrimEnd(s) == s[..end]
    ensures end > 0 ==> !IsSeparator(s[end - 1])
    ensures forall i :: end <= i < |s| ==> IsSeparator(s[i])
  {
    if s != "" && IsSeparator(s[|s| - 1]) {
      end := TrimEndKeeps(s[..|s| - 1]);
    } else {
      end := |s|;
    }
  }

  lemma {:induction false} TrimStartKeeps(s: string) returns (start: nat)
    ensures start <= |s| && TrimStart(s) == s[start..]
    ensures start < |s| ==> !IsSeparator(s[start])
    ensures forall i :: 0 <= i < start ==> IsSeparator(s[i])
  {
    if s != "" && IsSeparator(s[0]) {
      var rest := TrimStartKeeps(s[1..]);
      start := rest + 1;
      assert forall i :: 0 < i < start ==> s[i] == s[1..][i - 1];
    } else {
      start := 0;
    }
  }

  lemma TrimEdgesKeeps(s: string) returns (start: nat, end: nat)
    ensures start <= end <= |s| && TrimEdges(s) == s[start..end]
    ensures forall i :: 0 <= i < start || end <= i < |s| ==> IsSeparator(s[i])
    ensures start < end ==> !IsSeparator(s[start]) && !IsSeparator(s[end - 1])
  {
    start := TrimStartKeeps(s);
    var kept := TrimEndKeeps(s[start..]);
    end := start + kept;
    assert s[start..][..kept] == s[start..end];
    forall i | end <= i < |s| ensures IsSeparator(s[i]) {
      assert s[i] == s[start..][i - start];
    }
    if start < |s| {
      assert s[start..][0] == s[start];
    }
  }

  method TrimEdgeSeparators(value: string) returns (r: string)
    ensures r == TrimEdges(value)
  {
    var start := 0;
    var end := |value|;
    while start < end && IsSeparator(value[start])
      invariant 0 <= start <= end
      invariant TrimStart(value[start..]) == TrimStart(value)
    {
      assert value[start..][1..] == value[start + 1..];
      start := start + 1;
    }
    assert TrimStart(value) == value[start..];
    assert value[start..] == value[start..end];
    while end > start && IsSeparator(value[end - 1])
      invariant start <= end <= |value|
      invariant TrimEnd(value[start..end]) == TrimEdges(value)
    {
      assert value[start..end][..end - start - 1] == value[start..end - 1];
      end := end - 1;
    }
    r := value[start..end];
  }

  // ---------------------------------------------------------------- default names

  /** `.replace(/[^a-z0-9._-]/g, '')` */
  function Clean(s: string): string {
    if s == "" then ""
    else (if IsFolderChar(s[0]) then [s[0]] else []) + Clean(s[1..])
  }

  /** `.replace(/\.{2,}/g, '.')` */
  function CollapseDots(s: string): string {
    if |s| < 2 then s
    else if s[0] == '.' && s[1] == '.' then CollapseDots(s[1..])
    else [s[0]] + CollapseDots(s[1..])
  }

  function Cut(s: string, n: nat): string {
    if |s| <= n then s else s[..n]
  }

  function Named(ascii: string): string {
    if StartsWith(ascii, "*.") then "wildcard." + ascii[2..] else ascii
  }

  predicate Ascii(s: string) {
    forall i :: 0 <= i < |s| ==> s[i] < 128 as char
  }

  /** UTF-8 of ASCII text. */
  function Bytes(s: string): seq<Sha256.Byte>
    requires Ascii(s)
  {
    seq(|s|, i requires 0 <= i < |s| => s[i] as int)
  }

  function HashOf(ascii: string): string
    requires Ascii(ascii)
  {
    Sha256.HexText(Sha256.Digest(Bytes(ascii)))
  }

  /** `defaultFolderNameFromDomain` from the ASCII domain on, given the whole hash text of the domain. */
  function DefaultName(ascii: string, hash: string): string {
    var named := Named(ascii);
    if ValidFolderName(named) then named
    else
      var base := TrimEdges(Cut(CollapseDots(Clean(named)), DEFAULT_NAME_CUT_LENGTH));
      var short := Cut(hash, DEFAULT_NAME_HASH_LENGTH);
      if base == "" then short else base + "-" + short
  }

  lemma {:induction false} CleanKeeps(s: string)
    ensures FolderChars(Clean(s))
  {
    if s != "" {
      CleanKeeps(s[1..]);
    }
  }

  lemma {:induction false} CollapseKeeps(s: string)
    requires FolderChars(s)
    ensures FolderChars(CollapseDots(s)) && NoDotDot(CollapseDots(s))
    ensures s != "" ==> CollapseDots(s) != "" && CollapseDots(s)[0] == s[0]
  {
    if |s| >= 2 {
      CollapseKeeps(s[1..]);
    }
  }

  /** A trimmed, cut piece of clean text is empty or a valid name of at most `n` characters. */
  lemma TrimmedIsValid(s: string, n: nat)
    requires FolderChars(s) && NoDotDot(s) && n <= FOLDER_NAME_MAX_LENGTH
    ensures var base := TrimEdges(Cut(s, n)); base == "" || (ValidFolderName(base) && |base| <= n)
  {
    var cut := Cut(s, n);
    assert FolderChars(cut) && NoDotDot(cut);
    var start, end := TrimEdgesKeeps(cut);
    var base := cut[start..end];
    if start < end {
      assert base[0] == cut[start] && base[|base| - 1] == cut[end - 1];
      assert forall i :: 0 <= i < |base| ==> base[i] == cut[start + i];
    }
  }

  /** A valid name, a hyphen and an alphanumeric tail make a valid name when they fit. */
  lemma JoinedIsValid(base: string, tail: string)
    requires ValidFolderName(base) && 1 <= |tail| && |base| + 1 + |tail| <= FOLDER_NAME_MAX_LENGTH
    requires forall i :: 0 <= i < |tail| ==> IsAlnum(tail[i])
    ensures ValidFolderName(base + "-" + tail)
  {
    var s := base + "-" + tail;
    assert s[0] == base[0] && s[|s| - 1] == tail[|tail| - 1];
    forall i | 0 <= i < |s| - 1 ensures !(s[i] == '.' && s[i + 1] == '.') {
      if i < |base| - 1 {
        assert s[i] == base[i] && s[i + 1] == base[i + 1];
      }
    }
  }

  predicate IsHash(hash: string) {
    |hash| == 64 && forall i :: 0 <= i < |hash| ==> Sha256.IsHexDigit(hash[i])
  }

  /**
   * Every default name satisfies the folder rule, whatever the domain text; a
   * domain that is a valid name is its own default.
   */
  lemma DefaultNameValid(ascii: string, hash: string)
    requires IsHash(hash)
    ensures ValidFolderName(DefaultName(ascii, hash))
    ensures ValidFolderName(ascii) ==> DefaultName(ascii, hash) == ascii
  {
    var named := Named(ascii);
    if StartsWith(ascii, "*.") {
      assert ascii[0] == '*';
    }
    if !ValidFolderName(named) {
      CleanKeeps(named);
      CollapseKeeps(Clean(named));
      var s := CollapseDots(Clean(named));
      TrimmedIsValid(s, DEFAULT_NAME_CUT_LENGTH);
      var base, short := TrimEdges(Cut(s, DEFAULT_NAME_CUT_LENGTH)), Cut(hash, DEFAULT_NAME_HASH_LENGTH);
      if base != "" {
        JoinedIsValid(base, short);
      }
    }
  }

  lemma NamedWildcard(rest: string)
    ensures Named("*." + rest) == "wildcard." + rest && Named("wildcard." + rest) == "wildcard." + rest
  {
    assert ("*." + rest)[..2] == "*." && ("*." + rest)[2..] == rest;
    assert ("wildcard." + rest)[0] == 'w' && "*."[0] == '*';
  }

  lemma SameNamed(a: string, b: string, hash: string)
    requires Named(a) == Named(b)
    ensures DefaultName(a, hash) == DefaultName(b, hash)
    ensures ValidFolderName(Named(a)) ==> DefaultName(a, hash) == Named(a)
  {
  }

  /** A wildcard domain is named like the domain spelt with `wildcard` in the place of the star. */
  lemma WildcardName(rest: string, hash: string)
    ensures DefaultName("*." + rest, hash) == DefaultName("wildcard." + rest, hash)
    ensures ValidFolderName("wildcard." + rest) ==> DefaultName("*." + rest, hash) == "wildcard." + rest
  {
    NamedWildcard(rest);
    SameNamed("*." + rest, "wildcard." + rest, hash);
  }

  lemma {:induction false} CleanAppend(a: string, b: string)
    ensures Clean(a + b) == Clean(a) + Clean(b)
  {
    if a == "" {
      assert a + b == b;
    } else {
      CleanAppend(a[1..], b);
      assert (a + b)[1..] == a[1..] + b;
    }
  }

  lemma {:induction false} CleanSame(a: string)
    requires FolderChars(a)
    ensures Clean(a) == a
  {
    if a != "" {
      CleanSame(a[1..]);
      assert a == [a[0]] + a[1..];
    }
  }

  lemma {:induction false} CleanNone(a: string)
    requires forall i :: 0 <= i < |a| ==> !IsFolderChar(a[i])
    ensures Clean(a) == ""
  {
    if a != "" {
      CleanNone(a[1..]);
    }
  }

  /** Cleaning drops what is no folder character, wherever it stands, and keeps the rest in its order. */
  lemma CleanDrops(a: string, dropped: string, b: string)
    requires FolderChars(a) && forall i :: 0 <= i < |dropped| ==> !IsFolderChar(dropped[i])
    ensures Clean(a + (dropped + b)) == a + Clean(b)
  {
    CleanAppend(a, dropped + b);
    CleanAppend(dropped, b);
    CleanSame(a);
    CleanNone(dropped);
    assert "" + Clean(b) == Clean(b);
  }

  /** A run of dots becomes one, and nothing else changes. */
  lemma {:induction false} CollapsePair(a: string, b: string)
    ensures CollapseDots(a + ".." + b) == CollapseDots(a + "." + b)
    ensures NoDotDot(a) ==> CollapseDots(a) == a
    decreases |a|
  {
    var s, t := a + ".." + b, a + "." + b;
    if a == "" {
      assert s[1..] == t;
    } else {
      assert s[1..] == a[1..] + ".." + b && t[1..] == a[1..] + "." + b;
      assert s[1] == t[1];
      CollapsePair(a[1..], b);
      assert a == [a[0]] + a[1..];
    }
  }

  /** A long domain of folder characters keeps its first 54 characters, trimmed, before its hash. */
  lemma LongNameKeepsStart(ascii: string, hash: string)
    requires IsHash(hash) && FolderChars(ascii) && NoDotDot(ascii) && |ascii| > FOLDER_NAME_MAX_LENGTH
    requires IsAlnum(ascii[0])
    ensures DefaultName(ascii, hash) == TrimEdges(ascii[..54]) + "-" + hash[..8]
  {
    CleanSame(ascii);
    CollapsePair(ascii, "");
    assert !StartsWith(ascii, "*.") by { assert ascii[0] != '*'; }
    var start, end := TrimEdgesKeeps(ascii[..54]);
    assert !IsSeparator(ascii[..54][0]);
  }

  /** A name that had to be made up ends with the first eight hash characters. */
  lemma MadeNameEndsWithHash(ascii: string, hash: string)
    requires IsHash(hash) && !ValidFolderName(Named(ascii))
    ensures var name := DefaultName(ascii, hash);
            |name| >= 8 && name[|name| - 8..] == hash[..8]
  {
  }

  /** Made-up names of domains whose hashes differ in the first eight characters differ. */
  lemma MadeNamesDiffer(a: string, hashA: string, b: string, hashB: string)
    requires IsHash(hashA) && IsHash(hashB) && !ValidFolderName(Named(a)) && !ValidFolderName(Named(b))
    requires hashA[..8] != hashB[..8]
    ensures DefaultName(a, hashA) != DefaultName(b, hashB)
  {
    MadeNameEndsWithHash(a, hashA);
    MadeNameEndsWithHash(b, hashB);
  }

  /** `None` only for text too long to hash (2^31 - 72 characters or more). */
  method DefaultFolderName(ascii: string) returns (name: Option<string>)
    requires Ascii(ascii)
    ensures name.Some? ==> name.value == DefaultName(ascii, HashOf(ascii)) && ValidFolderName(name.value)
    ensures |ascii| < Sha256.TWO31 - 72 ==> name.Some?
  {
    Sha256.HexTextForm(Sha256.Digest(Bytes(ascii)));
    DefaultNameValid(ascii, HashOf(ascii));
    var named := Named(ascii);
    if ValidFolderName(named) {
      return Some(named);
    }
    var cleaned := CollapseDots(Clean(named));
    var base := TrimEdgeSeparators(Cut(cleaned, DEFAULT_NAME_CUT_LENGTH));
    var hash := Sha256.Sha256Hex(Bytes(ascii));
    if hash.None? {
      return None;
    }
    var short := Cut(hash.value, DEFAULT_NAME_HASH_LENGTH);
    name := Some(if |base| == 0 then short else base + "-" + short);
  }

  // ---------------------------------------------------------------- collision suffixes

  /** `withCollisionSuffix`; `None` where the code throws a RangeError. */
  function WithCollisionSuffix(base: string, n: int): Option<string> {
    if n < COLLISION_SUFFIX_MIN || n > COLLISION_SUFFIX_MAX then None
    else Some(Suffixed(base, n))
  }

  function Suffixed(base: string, n: nat): string
    requires n <= COLLISION_SUFFIX_MAX
  {
    ShortDecimal(n);
    var room := FOLDER_NAME_MAX_LENGTH - |Decimal(n)| - 1;
    (if |base| > room then TrimEdges(base[..room]) else base) + "-" + Decimal(n)
  }

  lemma ShortDecimal(n: nat)
    requires n <= COLLISION_SUFFIX_MAX
    ensures 1 <= |Decimal(n)| <= 2
  {
    if n >= 10 {
      assert Decimal(n) == Decimal(n / 10) + ['0' + (n % 10) as char];
    }
  }

  /** A suffixed valid base is valid, also after cutting and trimming; the suffix can be read back. */
  lemma SuffixedIsValid(base: string, n: int)
    requires ValidFolderName(base)
    ensures WithCollisionSuffix(base, n).Some? <==> 2 <= n <= 99
    ensures WithCollisionSuffix(base, n).Some? ==> ValidFolderName(WithCollisionSuffix(base, n).value)
    ensures 2 <= n <= 99 && |base| <= 60 ==> WithCollisionSuffix(base, n) == Some(base + "-" + Decimal(n))
  {
    if 2 <= n <= 99 {
      ShortDecimal(n);
      var room := FOLDER_NAME_MAX_LENGTH - |Decimal(n)| - 1;
      if |base| > room {
        TrimmedIsValid(base, room);
        var start, end := TrimEdgesKeeps(base[..room]);
        assert !IsSeparator(base[..room][0]);
      }
      var cut := if |base| > room then TrimEdges(base[..room]) else base;
      JoinedIsValid(cut, Decimal(n));
    }
  }

  lemma HyphenThenDigits(a: string, x: string)
    requires AllDigits(x)
    ensures var s := a + "-" + x;
            s[|a|] == '-' && forall k :: |a| < k < |s| ==> IsDigit(s[k])
  {
    var s := a + "-" + x;
    forall k | |a| < k < |s| ensures IsDigit(s[k]) {
      assert s[k] == x[k - |a| - 1];
    }
  }

  /** The digits after the last hyphen can be read back. */
  lemma LastHyphen(a: string, x: string, b: string, y: string)
    requires a + "-" + x == b + "-" + y && AllDigits(x) && AllDigits(y)
    ensures a == b && x == y
  {
    var s, t := a + "-" + x, b + "-" + y;
    HyphenThenDigits(a, x);
    HyphenThenDigits(b, y);
    assert |a| == |b|;
    assert s[..|a|] == a && t[..|b|] == b;
    assert s[|a| + 1..] == x && t[|b| + 1..] == y;
  }

  /** The suffixed candidates of any base are pairwise distinct. */
  lemma SuffixedDistinct(base: string, n: nat, m: nat)
    requires n <= 99 && m <= 99 && Suffixed(base, n) == Suffixed(base, m)
    ensures n == m
  {
    ShortDecimal(n);
    ShortDecimal(m);
    var a := Suffixed(base, n)[..|Suffixed(base, n)| - |Decimal(n)| - 1];
    var b := Suffixed(base, m)[..|Suffixed(base, m)| - |Decimal(m)| - 1];
    assert a + "-" + Decimal(n) == Suffixed(base, n);
    assert b + "-" + Decimal(m) == Suffixed(base, m);
    LastHyphen(a, Decimal(n), b, Decimal(m));
    ParseDecimalOf(n);
    ParseDecimalOf(m);
  }

  // ---------------------------------------------------------------- firstFreeFolderName

  /** The candidates in order: the base, then the suffixes 2 to 99. */
  function Candidate(base: string, i: nat): string
    requires i <= 98
  {
    if i == 0 then base else Suffixed(base, i + 1)
  }

  ghost predicate FreeAt(base: string, isTaken: string -> bool, i: nat) {
    i <= 98 && !isTaken(Candidate(base, i)) && forall j :: 0 <= j < i ==> isTaken(Candidate(base, j))
  }

  /** The earliest free candidate; nothing exactly when all 99 are taken. */
  method FirstFreeFolderName(base: string, isTaken: string -> bool) returns (r: Option<string>)
    ensures r.Some? ==> exists i :: FreeAt(base, isTaken, i) && r.value == Candidate(base, i)
    ensures r.None? <==> forall i :: 0 <= i <= 98 ==> isTaken(Candidate(base, i))
    ensures ValidFolderName(base) && r.Some? ==> ValidFolderName(r.value)
  {
    if !isTaken(base) {
      assert FreeAt(base, isTaken, 0) && base == Candidate(base, 0);
      return Some(base);
    }
    var n := COLLISION_SUFFIX_MIN;
    while n <= COLLISION_SUFFIX_MAX
      invariant 2 <= n <= 100
      invariant forall i :: 0 <= i < n - 1 ==> isTaken(Candidate(base, i))
    {
      var candidate := WithCollisionSuffix(base, n).value;
      if !isTaken(candidate) {
        assert FreeAt(base, isTaken, n - 1) && candidate == Candidate(base, n - 1);
        if ValidFolderName(base) {
          SuffixedIsValid(base, n);
        }
        return Some(candidate);
      }
      n := n + 1;
    }
    r := None;
  }

  function SuffixSet(base: string, n: nat): set<string>
    requires n <= 98
  {
    if n == 0 then {} else SuffixSet(base, n - 1) + {Suffixed(base, n + 1)}
  }

  lemma {:induction false} SuffixSetMember(base: string, n: nat, s: string) returns (i: nat)
    requires n <= 98 && s in SuffixSet(base, n)
    ensures 1 <= i <= n && s == Candidate(base, i)
  {
    if s == Suffixed(base, n + 1) {
      i := n;
    } else {
      i := SuffixSetMember(base, n - 1, s);
    }
  }

  lemma {:induction false} SuffixSetHas(base: string, n: nat, i: nat)
    requires 1 <= i <= n <= 98
    ensures Candidate(base, i) in SuffixSet(base, n)
  {
    if i < n {
      SuffixSetHas(base, n - 1, i);
    }
  }

  lemma {:induction false} SuffixSetSize(base: string, n: nat)
    requires n <= 98
    ensures |SuffixSet(base, n)| == n
  {
    if n > 0 {
      SuffixSetSize(base, n - 1);
      if Suffixed(base, n + 1) in SuffixSet(base, n - 1) {
        var i := SuffixSetMember(base, n - 1, Suffixed(base, n + 1));
        SuffixedDistinct(base, n + 1, i + 1);
        assert false;
      }
    }
  }

  /** Fewer than 98 taken names always leave a candidate, for every base. */
  lemma FewTakenLeaveOne(base: string, taken: set<string>) returns (i: nat)
    requires |taken| < 98
    ensures 1 <= i <= 98 && Candidate(base, i) !in taken
  {
    SuffixSetSize(base, 98);
    if SuffixSet(base, 98) <= taken {
      SubsetSize(SuffixSet(base, 98), taken);
      assert false;
    }
    var s :| s in SuffixSet(base, 98) && s !in taken;
    i := SuffixSetMember(base, 98, s);
  }

  /** The base is one of its own suffixed candidates. */
  ghost predicate OwnCandidate(base: string) {
    exists n :: 2 <= n <= 99 && Suffixed(base, n) == base
  }

  ghost predicate CoversAll(base: string, taken: set<string>) {
    forall i :: 0 <= i <= 98 ==> Candidate(base, i) in taken
  }

  lemma CoversSuffixes(base: string, taken: set<string>)
    requires CoversAll(base, taken)
    ensures SuffixSet(base, 98) <= taken && base in taken
  {
    forall s | s in SuffixSet(base, 98) ensures s in taken {
      var i := SuffixSetMember(base, 98, s);
    }
    assert Candidate(base, 0) == base;
  }

  /** A base that is no candidate of its own has 99 different candidates. */
  lemma NinetyNineNeeded(base: string, taken: set<string>)
    requires !OwnCandidate(base) && CoversAll(base, taken)
    ensures |taken| >= 99
  {
    CoversSuffixes(base, taken);
    SuffixSetSize(base, 98);
    if base in SuffixSet(base, 98) {
      var i := SuffixSetMember(base, 98, base);
      assert false;
    }
    var all := SuffixSet(base, 98) + {base};
    assert |all| == 99;
    SubsetSize(all, taken);
  }

  lemma OwnCandidateCovered(base: string)
    requires OwnCandidate(base)
    ensures CoversAll(base, SuffixSet(base, 98)) && |SuffixSet(base, 98)| == 98
  {
    var n :| 2 <= n <= 99 && Suffixed(base, n) == base;
    SuffixSetSize(base, 98);
    forall i | 0 <= i <= 98 ensures Candidate(base, i) in SuffixSet(base, 98) {
      SuffixSetHas(base, 98, if i == 0 then n - 1 else i);
      assert Candidate(base, n - 1) == base;
    }
  }

  /** 98 taken names can leave nothing exactly for the bases that are a candidate of their own. */
  lemma NinetyEightBlockExactly(base: string)
    ensures (exists taken: set<string> :: |taken| == 98 && CoversAll(base, taken)) <==> OwnCandidate(base)
  {
    if OwnCandidate(base) {
      OwnCandidateCovered(base);
    }
    if exists taken: set<string> :: |taken| == 98 && CoversAll(base, taken) {
      var taken: set<string> :| |taken| == 98 && CoversAll(base, taken);
      if !OwnCandidate(base) {
        NinetyNineNeeded(base, taken);
        assert false;
      }
    }
  }

  /** For every other base any 98 taken names still leave a candidate. */
  lemma NinetyEightLeaveOne(base: string, taken: set<string>) returns (i: nat)
    requires |taken| <= 98 && !OwnCandidate(base)
    ensures i <= 98 && Candidate(base, i) !in taken
  {
    if CoversAll(base, taken) {
      NinetyNineNeeded(base, taken);
      assert false;
    }
    i :| 0 <= i <= 98 && Candidate(base, i) !in taken;
  }

  /** The name ends in a hyphen and this number, after a part that ends in no separator. */
  predicate EndsInNumber(base: string, n: nat) {
    var tail := |Decimal(n)| + 1;
    tail < |base| && base[|base| - tail..] == "-" + Decimal(n) && !IsSeparator(base[|base| - tail - 1])
  }

  /** What a caller can look at: 62 or 63 characters that end in a suffix after no separator. */
  predicate LooksSuffixed(base: string) {
    (|base| == 62 || |base| == 63) && exists n :: 2 <= n <= 99 && EndsInNumber(base, n)
  }

  /** A text with alphanumeric ends is not trimmed. */
  lemma TrimmedAlready(s: string)
    requires s != "" && !IsSeparator(s[0]) && !IsSeparator(s[|s| - 1])
    ensures TrimEdges(s) == s
  {
  }

  lemma TrimOneHyphen(s: string)
    requires s != "" && !IsSeparator(s[0]) && !IsSeparator(s[|s| - 1])
    ensures TrimEdges(s + "-") == s
  {
    var t := s + "-";
    assert TrimStart(t) == t;
    assert t[..|t| - 1] == s;
    assert TrimEnd(t) == TrimEnd(s) == s;
  }

  lemma EndsInNumberIsOwn(base: string, n: nat)
    requires ValidFolderName(base) && 2 <= n <= 99 && (|base| == 62 || |base| == 63) && EndsInNumber(base, n)
    ensures Suffixed(base, n) == base
  {
    ShortDecimal(n);
    var tail := |Decimal(n)| + 1;
    var front := base[..|base| - tail];
    assert base == front + ("-" + Decimal(n));
    assert front[0] == base[0] && front[|front| - 1] == base[|base| - tail - 1];
    TrimmedAlready(front);
    TrimOneHyphen(front);
    var room := 63 - tail;
    if |base| == 62 {
      assert base[..room] == front + "-";
    }
  }

  /** A cut piece that is trimmed keeps its first character and loses only separators at its end. */
  lemma CutOfValid(base: string, room: nat) returns (end: nat)
    requires ValidFolderName(base) && 0 < room < |base|
    ensures 0 < end <= room && TrimEdges(base[..room]) == base[..end] && !IsSeparator(base[end - 1])
    ensures forall i :: end <= i < room ==> IsSeparator(base[i])
  {
    var cut := base[..room];
    var start, last := TrimEdgesKeeps(cut);
    assert !IsSeparator(cut[0]);
    end := last;
    assert cut[..end] == base[..end];
    assert forall i :: 0 <= i < room ==> cut[i] == base[i];
  }

  lemma OwnEndsInNumber(base: string, n: nat)
    requires ValidFolderName(base) && 2 <= n <= 99 && Suffixed(base, n) == base
    ensures (|base| == 62 || |base| == 63) && EndsInNumber(base, n)
  {
    ShortDecimal(n);
    var digits := Decimal(n);
    var tail := |digits| + 1;
    var room := 63 - tail;
    assert |base| > room;
    var end := CutOfValid(base, room);
    assert base == base[..end] + "-" + digits;
    assert |base| == end + tail;
    assert base[end..] == "-" + digits;
    assert end + 1 < |base| && base[end + 1] == digits[0];
  }

  /** For valid bases the condition can be read off the name. */
  lemma OwnCandidateLooks(base: string)
    requires ValidFolderName(base)
    ensures OwnCandidate(base) <==> LooksSuffixed(base)
  {
    if OwnCandidate(base) {
      var n :| 2 <= n <= 99 && Suffixed(base, n) == base;
      OwnEndsInNumber(base, n);
    }
    if LooksSuffixed(base) {
      var n :| 2 <= n <= 99 && EndsInNumber(base, n);
      EndsInNumberIsOwn(base, n);
    }
  }

  /** Names that do get blocked: 59 or 60 alphanumeric characters and a two-digit suffix. */
  lemma NinetyEightCanBlock(head: string, n: nat)
    requires 59 <= |head| <= 60 && 10 <= n <= 99 && forall i :: 0 <= i < |head| ==> IsAlnum(head[i])
    ensures var base := head + "-" + Decimal(n);
            ValidFolderName(base) && |SuffixSet(base, 98)| == 98 && CoversAll(base, SuffixSet(base, 98))
  {
    var base := head + "-" + Decimal(n);
    TwoDigits(n);
    JoinedIsValid(head, Decimal(n));
    assert base[|base| - 3..] == "-" + Decimal(n);
    assert EndsInNumber(base, n);
    OwnCandidateLooks(base);
    OwnCandidateCovered(base);
  }

  lemma TwoDigits(n: nat)
    requires 10 <= n <= 99
    ensures |Decimal(n)| == 2
  {
    assert |Decimal(n / 10)| == 1;
  }

  // ---------------------------------------------------------------- folder references and host paths

  datatype FolderKind = Service | Volume

  datatype FolderRef = FolderRef(owner: string, scope: string, kind: FolderKind, slug: string)

  datatype PathError = InvalidRoot | InvalidOwner | InvalidScope | InvalidSlug

  datatype PathResult = Path(path: string) | Failed(error: PathError)

  predicate ValidRef(r: FolderRef) {
    ValidOwnerName(r.owner) && ValidScope(r.scope) && ValidFolderName(r.slug)
  }

  predicate ValidRoot(root: string) {
    |root| >= 2 && root[0] == '/' && root[|root| - 1] != '/'
  }

  function KindFolder(kind: FolderKind): string {
    if kind.Service? then "services" else "volumes"
  }

  function JailPath(r: FolderRef): string {
    "/" + r.scope + "/" + KindFolder(r.kind) + "/" + r.slug
  }

  /** `folderHostPath`, the checks in the order of the code. */
  function FolderHostPath(root: string, r: FolderRef): PathResult {
    if !ValidRoot(root) then Failed(InvalidRoot)
    else if !ValidOwnerName(r.owner) then Failed(InvalidOwner)
    else if !ValidScope(r.scope) then Failed(InvalidScope)
    else if !ValidFolderName(r.slug) then Failed(InvalidSlug)
    else Path(root + "/" + r.owner + JailPath(r))
  }

  function Components(r: FolderRef): (c: seq<string>)
    ensures |c| == 4
  {
    [r.owner, r.scope, KindFolder(r.kind), r.slug]
  }

  predicate SafeComponent(c: string) {
    c != "" && c != "." && c != ".." && '/' !in c
  }

  lemma WordIsSafe(s: string)
    requires s != "" && WordChars(s)
    ensures SafeComponent(s)
  {
    assert s[0] != '.';
  }

  lemma SlugIsSafe(s: string)
    requires ValidFolderName(s)
    ensures SafeComponent(s)
  {
  }

  lemma ScopeIsSafe(s: string)
    requires ValidScope(s)
    ensures SafeComponent(s)
    ensures s in RESERVED_SCOPE_NAMES <==> s == COMMON_SCOPE
  {
    if s == COMMON_SCOPE {
      assert WordChars(s);
    }
    WordIsSafe(s);
  }

  lemma KindIsSafe(kind: FolderKind)
    ensures SafeComponent(KindFolder(kind))
  {
    assert WordChars("services");
    assert WordChars("volumes");
    WordIsSafe(KindFolder(kind));
  }

  lemma ComponentsSafe(r: FolderRef)
    requires ValidRef(r)
    ensures forall i :: 0 <= i < 4 ==> SafeComponent(Components(r)[i])
  {
    WordIsSafe(r.owner);
    ScopeIsSafe(r.scope);
    KindIsSafe(r.kind);
    SlugIsSafe(r.slug);
  }

  lemma JoinFour(a: string, b: string, c: string, d: string, sep: char)
    ensures Join([a, b, c, d], sep) == a + [sep] + b + [sep] + c + [sep] + d
  {
    assert [a, b, c, d][1..] == [b, c, d];
    assert [b, c, d][1..] == [c, d];
    assert [c, d][1..] == [d];
    assert Join([c, d], sep) == c + [sep] + d;
    assert Join([b, c, d], sep) == b + [sep] + (c + [sep] + d);
  }

  /**
   * A path is built exactly for valid roots and references. It is the root, a
   * slash and four components, each safe, and splitting it gives them back.
   */
  lemma PathHasFourComponents(root: string, r: FolderRef)
    ensures FolderHostPath(root, r).Path? <==> ValidRoot(root) && ValidRef(r)
    ensures FolderHostPath(root, r).Path? ==>
              var path := FolderHostPath(root, r).path;
              && StartsWith(path, root + "/")
              && Split(path[|root| + 1..], '/')
                 == [r.owner, r.scope, if r.kind == Service then "services" else "volumes", r.slug]
              && Split(path[|root| + 1..], '/') == Components(r)
              && (forall i :: 0 <= i < 4 ==> SafeComponent(Components(r)[i]))
              && (Components(r)[1] in RESERVED_SCOPE_NAMES <==> Components(r)[1] == COMMON_SCOPE)
  {
    if FolderHostPath(root, r).Path? {
      var path := FolderHostPath(root, r).path;
      var kind := KindFolder(r.kind);
      JoinFour(r.owner, r.scope, kind, r.slug, '/');
      assert path == (root + "/") + Join(Components(r), '/');
      ComponentsSafe(r);
      ScopeIsSafe(r.scope);
      SplitJoin(Components(r), '/');
      assert path[|root| + 1..] == Join(Components(r), '/');
    }
  }

  /** Two references with the same path under one root are the same reference. */
  lemma PathInjective(root: string, a: FolderRef, b: FolderRef)
    requires FolderHostPath(root, a).Path? && FolderHostPath(root, a) == FolderHostPath(root, b)
    ensures a == b
  {
    PathHasFourComponents(root, a);
    PathHasFourComponents(root, b);
    var c, d := Components(a), Components(b);
    assert c == d;
    assert c[0] == d[0] && c[1] == d[1] && c[2] == d[2] && c[3] == d[3];
    assert |KindFolder(Service)| == 8 && |KindFolder(Volume)| == 7;
  }
}
