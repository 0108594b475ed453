/**
 * The licence-expression evaluator: a splitter over text with a parenthesis
 * depth, and the proof that it means what the expression's syntax tree means.
 * Texts are ASCII.
 */
module Spdx {
  import opened Strings

  // ---------------------------------------------------------------- text functions

  predicate IsSpace(c: char) {
    c == ' ' || '\t' <= c <= '\r'
  }

  function TrimStart(s: string): (r: string)
    ensures |r| <= |s|
  {
    if s != "" && IsSpace(s[0]) then TrimStart(s[1..]) else s
  }

  function TrimEnd(s: string): (r: string)
    ensures |r| <= |s|
  {
    if s != "" && IsSpace(s[|s| - 1]) then TrimEnd(s[..|s| - 1]) else s
  }

  function Trim(s: string): (r: string)
    ensures |r| <= |s|
  {
    TrimEnd(TrimStart(s))
  }

  function UpperChar(c: char): char {
    if 'a' <= c <= 'z' then c - 'a' + 'A' else c
  }

  function Upper(s: string): (r: string)
    ensures |r| == |s|
  {
    seq(|s|, i requires 0 <= i < |s| => UpperChar(s[i]))
  }

  /** The depth walk of `balanced` from some position on: inside parentheses until the very end. */
  predicate BalancedFrom(s: string, depth: int) {
    if s == "" then depth == 0
    else
      var d := depth + (if s[0] == '(' then 1 else 0) - (if s[0] == ')' then 1 else 0);
      if d < 0 || (d == 0 && |s| > 1) then false else BalancedFrom(s[1..], d)
  }

  predicate Wrapped(s: string) {
    |s| > 0 && s[0] == '(' && s[|s| - 1] == ')' && BalancedFrom(s, 0)
  }

  lemma WrappedIsLong(s: string)
    requires Wrapped(s)
    ensures |s| >= 2
  {
  }

  /** The loop of `unwrapParens` on a trimmed text. */
  function Peel(s: string): (r: string)
    ensures |r| <= |s|
    decreases |s|
  {
    if Wrapped(s) then
      WrappedIsLong(s);
      Peel(Trim(s[1..|s| - 1]))
    else s
  }

  function Unwrap(s: string): (r: string)
    ensures |r| <= |s|
  {
    Peel(Trim(s))
  }

  /** The pieces of `s` between top-level delimiters; `current` is the piece begun so far. */
  function Pieces(s: string, depth: int, current: string, delimiter: string): (r: seq<string>)
    requires delimiter != ""
    ensures |r| >= 1
    decreases |s|
  {
    if s == "" then [current]
    else if s[0] == '(' then Pieces(s[1..], depth + 1, current + [s[0]], delimiter)
    else if s[0] == ')' then Pieces(s[1..], depth - 1, current + [s[0]], delimiter)
    else if depth == 0 && delimiter <= Upper(s) then [current] + Pieces(s[|delimiter|..], depth, "", delimiter)
    else Pieces(s[1..], depth, current + [s[0]], delimiter)
  }

  /** `pushTrimmed` over all pieces. */
  function Kept(pieces: seq<string>): seq<string> {
    if pieces == [] then []
    else (if Trim(pieces[0]) != "" then [Trim(pieces[0])] else []) + Kept(pieces[1..])
  }

  /** `splitTopLevel`; a single part stands for its `null`. */
  function Parts(s: string, delimiter: string): seq<string>
    requires delimiter != ""
  {
    Kept(Pieces(Unwrap(s), 0, "", delimiter))
  }

  /** The first place where `word` occurs, `None` for -1. */
  function IndexOf(s: string, word: string): (r: Option<nat>)
    ensures r.Some? ==> r.value <= |s|
  {
    if word <= s then Some(0)
    else if s == "" then None
    else
      match IndexOf(s[1..], word)
      case None => None
      case Some(i) => Some(i + 1)
  }

  const OR: string := " OR "
  const AND: string := " AND "
  const WITH: string := " WITH "

  function StripWith(token: string): string {
    match IndexOf(Upper(token), WITH)
    case None => Trim(token)
    case Some(i) => Trim(token[..i])
  }

  // ---------------------------------------------------------------- parts are shorter than the whole

  lemma {:induction false} PiecesShorter(s: string, depth: int, current: string, delimiter: string, piece: string)
    requires delimiter != "" && piece in Pieces(s, depth, current, delimiter)
    ensures |piece| <= |current| + |s|
    ensures |Pieces(s, depth, current, delimiter)| > 1 ==> |piece| < |current| + |s|
    decreases |s|
  {
    if s != "" {
      if s[0] == '(' {
        PiecesShorter(s[1..], depth + 1, current + [s[0]], delimiter, piece);
      } else if s[0] == ')' {
        PiecesShorter(s[1..], depth - 1, current + [s[0]], delimiter, piece);
      } else if depth == 0 && delimiter <= Upper(s) {
        if piece != current {
          PiecesShorter(s[|delimiter|..], depth, "", delimiter, piece);
        }
      } else {
        PiecesShorter(s[1..], depth, current + [s[0]], delimiter, piece);
      }
    }
  }

  lemma {:induction false} KeptFrom(pieces: seq<string>, part: string) returns (piece: string)
    requires part in Kept(pieces)
    ensures piece in pieces && part == Trim(piece) && part != ""
  {
    if Trim(pieces[0]) == part && part != "" {
      piece := pieces[0];
    } else {
      piece := KeptFrom(pieces[1..], part);
    }
  }

  lemma {:induction false} KeptFew(pieces: seq<string>)
    ensures |Kept(pieces)| <= |pieces|
  {
    if pieces != [] {
      KeptFew(pieces[1..]);
    }
  }

  /** When a text splits, every part is strictly shorter than the text. */
  lemma PartsShorter(s: string, delimiter: string, part: string)
    requires delimiter != "" && part in Parts(s, delimiter) && |Parts(s, delimiter)| > 1
    ensures |part| < |s|
  {
    var pieces := Pieces(Unwrap(s), 0, "", delimiter);
    var piece := KeptFrom(pieces, part);
    KeptFew(pieces);
    PiecesShorter(Unwrap(s), 0, "", delimiter, piece);
  }

  // ---------------------------------------------------------------- the evaluator

  datatype Reason =
    | Missing
    | Custom
    | SeeLicenseIn
    | Noncommercial
    | SourceAvailable
    | CopyleftProduction
    | MplProduction

  /** `None` passes; otherwise the reason the policy refuses. */
  type Verdict = Option<Reason>

  function AnyPasses(results: seq<Verdict>): Verdict {
    if None in results then None
    else if results == [] || results[0] == None then Some(Custom)
    else results[0]
  }

  function FirstFailure(results: seq<Verdict>): Verdict {
    if results == [] then None else if results[0].Some? then results[0] else FirstFailure(results[1..])
  }

  /** `classifySpdxExpression`, for whatever `token` says about single licence tokens. */
  function Classify(s: string, token: string -> Verdict): Verdict
    decreases |s|, 1, 0
  {
    var orParts := Parts(s, OR);
    if |orParts| > 1 then AnyPasses(ClassifyAll(s, OR, orParts, token))
    else
      var andParts := Parts(s, AND);
      if |andParts| > 1 then FirstFailure(ClassifyAll(s, AND, andParts, token))
      else token(StripWith(Unwrap(s)))
  }

  function ClassifyAll(ghost whole: string, ghost delimiter: string, parts: seq<string>,
                       token: string -> Verdict): (r: seq<Verdict>)
    requires delimiter != "" && |Parts(whole, delimiter)| > 1
    requires forall i :: 0 <= i < |parts| ==> parts[i] in Parts(whole, delimiter)
    ensures |r| == |parts|
    decreases |whole|, 0, |parts|
  {
    if parts == [] then []
    else
      PartsShorter(whole, delimiter, parts[0]);
      [Classify(parts[0], token)] + ClassifyAll(whole, delimiter, parts[1..], token)
  }

  // ---------------------------------------------------------------- syntax trees

  /** An operator word with `before` and `after` further blanks, beyond the one that always stands on each side. */
  datatype Joint = Joint(before: nat, word: string, after: nat)

  /**
   * A licence expression as it is written: operator words in any letter case,
   * one or more blanks on either side of them, parentheses anywhere they are
   * allowed, with blanks inside them.
   */
  datatype Expr =
    | License(id: string)
    | Excepted(id: string, joint: Joint, exception: string)
    | And(left: Expr, joint: Joint, right: Expr)
    | Or(left: Expr, joint: Joint, right: Expr)
    | Paren(lead: nat, inner: Expr, trail: nat)

  /** No blank and no parenthesis. */
  predicate Unspaced(w: string) {
    forall i :: 0 <= i < |w| ==> !IsSpace(w[i]) && w[i] != '(' && w[i] != ')'
  }

  /** A word with no blank and no parenthesis in it. */
  predicate Plain(w: string) {
    w != "" && Unspaced(w)
  }

  predicate Identifier(w: string) {
    Plain(w) && Upper(w) != "OR" && Upper(w) != "AND" && Upper(w) != "WITH"
  }

  predicate Spells(j: Joint, op: string) {
    Plain(j.word) && Upper(j.word) == op
  }

  /** The expressions of Annex D.4 of SPDX 2.3: AND binds closer than OR. */
  predicate WellFormed(e: Expr) {
    match e
    case License(id) => Identifier(id)
    case Excepted(id, joint, exception) => Identifier(id) && Spells(joint, "WITH") && Identifier(exception)
    case And(l, joint, r) => Spells(joint, "AND") && WellFormed(l) && WellFormed(r) && !l.Or? && !r.Or?
    case Or(l, joint, r) => Spells(joint, "OR") && WellFormed(l) && WellFormed(r)
    case Paren(_, inner, _) => WellFormed(inner)
  }

  function Blanks(n: nat): string {
    seq(n, i => ' ')
  }

  function Padded(lead: nat, s: string, trail: nat): string {
    Blanks(lead) + s + Blanks(trail)
  }

  function Spaced(a: string, word: string, b: string): string {
    a + " " + word + " " + b
  }

  function JointText(j: Joint): string {
    Padded(j.before, j.word, j.after)
  }

  function Show(e: Expr): string {
    match e
    case License(id) => id
    case Excepted(id, joint, exception) => Spaced(id, JointText(joint), exception)
    case And(l, joint, r) => Spaced(Show(l), JointText(joint), Show(r))
    case Or(l, joint, r) => Spaced(Show(l), JointText(joint), Show(r))
    case Paren(lead, inner, trail) => "(" + Padded(lead, Show(inner), trail) + ")"
  }

  /** What the expression means: OR passes if a side passes, AND if both do; exceptions are dropped. */
  function Eval(e: Expr, token: string -> Verdict): Verdict {
    match e
    case License(id) => token(id)
    case Excepted(id, _, _) => token(id)
    case And(l, _, r) => if Eval(l, token).Some? then Eval(l, token) else Eval(r, token)
    case Or(l, _, r) => if Eval(l, token).None? || Eval(r, token).None? then None else Eval(l, token)
    case Paren(_, inner, _) => Eval(inner, token)
  }

  // ---------------------------------------------------------------- words

  function Empties(n: nat): seq<string> {
    seq(n, i => "")
  }

  /** A list of words with empty words before and after it. */
  function PaddedWords(lead: nat, words: seq<string>, trail: nat): seq<string> {
    Empties(lead) + words + Empties(trail)
  }

  function JointWords(j: Joint): (r: seq<string>) {
    PaddedWords(j.before, [j.word], j.after)
  }

  /**
   * The words of the text at top level, as blanks separate them: a parenthesised
   * group is one word, and between two blanks there is an empty one.
   */
  function Words(e: Expr): (r: seq<string>)
    ensures |r| >= 1
  {
    match e
    case License(id) => [id]
    case Excepted(id, joint, exception) => [id] + JointWords(joint) + [exception]
    case And(l, joint, r) => Words(l) + JointWords(joint) + Words(r)
    case Or(l, joint, r) => Words(l) + JointWords(joint) + Words(r)
    case Paren(lead, inner, trail) => [Show(e)]
  }

  /** The depth after walking a text, if the walk never goes below the floor. */
  predicate Stays(s: string, depth: int, floor: int) {
    if s == "" then depth >= floor
    else depth >= floor && Stays(s[1..], Move(s[0], depth), floor)
  }

  function Move(c: char, depth: int): int {
    depth + (if c == '(' then 1 else 0) - (if c == ')' then 1 else 0)
  }

  function Net(s: string): int {
    if s == "" then 0 else Move(s[0], 0) + Net(s[1..])
  }

  /** A text in parentheses that closes only at its end. */
  predicate Group(w: string) {
    |w| >= 2 && w[0] == '(' && w[|w| - 1] == ')' && Net(w[1..|w| - 1]) == 0 && Stays(w[1..|w| - 1], 1, 1)
  }

  predicate Word(w: string) {
    Unspaced(w) || Group(w)
  }

  predicate AllWords(words: seq<string>) {
    forall i :: 0 <= i < |words| ==> Word(words[i])
  }

  lemma {:induction false} NetAppend(a: string, b: string)
    ensures Net(a + b) == Net(a) + Net(b)
  {
    if a == "" {
      assert a + b == b;
    } else {
      NetAppend(a[1..], b);
      assert (a + b)[1..] == a[1..] + b;
    }
  }

  lemma {:induction false} StaysAppend(a: string, b: string, depth: int, floor: int)
    requires Stays(a, depth, floor) && Stays(b, depth + Net(a), floor)
    ensures Stays(a + b, depth, floor)
    decreases |a|
  {
    if a == "" {
      assert a + b == b;
    } else {
      StaysAppend(a[1..], b, Move(a[0], depth), floor);
      assert (a + b)[1..] == a[1..] + b;
    }
  }

  lemma {:induction false} StaysHigher(s: string, depth: int, floor: int, depth2: int, floor2: int)
    requires Stays(s, depth, floor) && depth2 - floor2 >= depth - floor
    ensures Stays(s, depth2, floor2)
    decreases |s|
  {
    if s != "" {
      StaysHigher(s[1..], Move(s[0], depth), floor, Move(s[0], depth2), floor2);
    }
  }

  lemma {:induction false} PlainNet(w: string)
    requires forall i :: 0 <= i < |w| ==> w[i] != '(' && w[i] != ')'
    ensures Net(w) == 0 && Stays(w, 0, 0)
    decreases |w|
  {
    if w != "" {
      PlainNet(w[1..]);
    }
  }

  lemma Sequence(a: string, b: string)
    requires Net(a) == 0 && Stays(a, 0, 0) && Net(b) == 0 && Stays(b, 0, 0)
    ensures Net(a + b) == 0 && Stays(a + b, 0, 0)
  {
    NetAppend(a, b);
    StaysAppend(a, b, 0, 0);
  }

  lemma ParenBalances(t: string)
    requires Net(t) == 0 && Stays(t, 0, 0)
    ensures Group("(" + t + ")") && Net("(" + t + ")") == 0 && Stays("(" + t + ")", 0, 0)
  {
    var w := "(" + t + ")";
    assert w[1..|w| - 1] == t;
    StaysHigher(t, 0, 0, 1, 1);
    NetAppend("(" + t, ")");
    NetAppend("(", t);
    assert Net("(") == 1 && Net(")") == -1;
    StaysHigher(t, 0, 0, 1, 0);
    assert Stays("(", 0, 0);
    StaysAppend("(", t, 0, 0);
    assert Stays(")", 1, 0);
    StaysAppend("(" + t, ")", 0, 0);
  }

  lemma SpacedBalances(a: string, joint: Joint, b: string)
    requires Net(a) == 0 && Stays(a, 0, 0) && Net(b) == 0 && Stays(b, 0, 0) && Plain(joint.word)
    ensures var s := Spaced(a, JointText(joint), b); Net(s) == 0 && Stays(s, 0, 0)
  {
    var word := JointText(joint);
    PlainNet(" ");
    PlainNet(word);
    Sequence(a, " ");
    Sequence(a + " ", word);
    Sequence(a + " " + word, " ");
    Sequence(a + " " + word + " ", b);
  }

  lemma {:induction false} ShowBalances(e: Expr)
    requires WellFormed(e)
    ensures Net(Show(e)) == 0 && Stays(Show(e), 0, 0)
  {
    match e
    case License(id) =>
      PlainNet(id);
    case Excepted(id, joint, exception) =>
      PlainNet(id);
      PlainNet(exception);
      SpacedBalances(id, joint, exception);
    case And(l, joint, r) =>
      ShowBalances(l);
      ShowBalances(r);
      SpacedBalances(Show(l), joint, Show(r));
    case Or(l, joint, r) =>
      ShowBalances(l);
      ShowBalances(r);
      SpacedBalances(Show(l), joint, Show(r));
    case Paren(lead, inner, trail) =>
      ShowBalances(inner);
      ShowParenBalances(lead, inner, trail);
  }

  lemma ShowParenBalances(lead: nat, inner: Expr, trail: nat)
    requires Net(Show(inner)) == 0 && Stays(Show(inner), 0, 0)
    ensures var s := Show(Paren(lead, inner, trail)); Net(s) == 0 && Stays(s, 0, 0)
  {
    PaddedBalances(lead, Show(inner), trail);
    ParenBalances(Padded(lead, Show(inner), trail));
  }

  lemma PaddedBalances(lead: nat, s: string, trail: nat)
    requires Net(s) == 0 && Stays(s, 0, 0)
    ensures var t := Padded(lead, s, trail); Net(t) == 0 && Stays(t, 0, 0)
  {
    PlainNet(Blanks(lead));
    PlainNet(Blanks(trail));
    Sequence(Blanks(lead), s);
    Sequence(Blanks(lead) + s, Blanks(trail));
  }

  lemma {:induction false} JoinAppend(a: seq<string>, b: seq<string>)
    requires |a| >= 1 && |b| >= 1
    ensures Join(a + b, ' ') == Join(a, ' ') + " " + Join(b, ' ')
    decreases |a|
  {
    if |a| == 1 {
      assert (a + b)[1..] == b;
    } else {
      JoinAppend(a[1..], b);
      assert (a + b)[1..] == a[1..] + b;
    }
  }

  lemma JoinThree(a: seq<string>, words: seq<string>, b: seq<string>)
    requires |a| >= 1 && |words| >= 1 && |b| >= 1
    ensures Join(a + words + b, ' ') == Spaced(Join(a, ' '), Join(words, ' '), Join(b, ' '))
  {
    JoinAppend(a, words);
    JoinAppend(a + words, b);
  }

  lemma {:induction false} JoinTrailing(words: seq<string>, n: nat)
    requires |words| >= 1
    ensures Join(words + Empties(n), ' ') == Join(words, ' ') + Blanks(n)
    decreases n
  {
    if n == 0 {
      assert words + Empties(n) == words;
      assert Join(words, ' ') + Blanks(n) == Join(words, ' ');
    } else {
      var front := words + Empties(n - 1);
      assert words + Empties(n) == front + [""];
      JoinAppend(front, [""]);
      JoinTrailing(words, n - 1);
      assert Blanks(n) == Blanks(n - 1) + " ";
      assert Join(front, ' ') + " " + "" == Join(words, ' ') + Blanks(n);
    }
  }

  lemma {:induction false} JoinLeading(n: nat, words: seq<string>)
    requires |words| >= 1
    ensures Join(Empties(n) + words, ' ') == Blanks(n) + Join(words, ' ')
    decreases n
  {
    if n == 0 {
      assert Empties(n) + words == words;
      assert Blanks(n) + Join(words, ' ') == Join(words, ' ');
    } else {
      assert Empties(n) + words == [""] + (Empties(n - 1) + words);
      JoinAppend([""], Empties(n - 1) + words);
      JoinLeading(n - 1, words);
      assert Blanks(n) == " " + Blanks(n - 1);
      assert "" + " " + (Blanks(n - 1) + Join(words, ' ')) == Blanks(n) + Join(words, ' ');
    }
  }

  /** Empty words around a list are blanks around its text. */
  lemma JoinPadded(lead: nat, words: seq<string>, trail: nat)
    requires |words| >= 1
    ensures Join(PaddedWords(lead, words, trail), ' ') == Padded(lead, Join(words, ' '), trail)
  {
    JoinTrailing(Empties(lead) + words, trail);
    JoinLeading(lead, words);
  }

  lemma JoinedWords(a: seq<string>, joint: Joint, b: seq<string>)
    requires |a| >= 1 && |b| >= 1 && Plain(joint.word) && AllWords(a) && AllWords(b)
    ensures Join(a + JointWords(joint) + b, ' ') == Spaced(Join(a, ' '), JointText(joint), Join(b, ' '))
    ensures AllWords(a + JointWords(joint) + b)
  {
    JoinThree(a, JointWords(joint), b);
    JoinPadded(joint.before, [joint.word], joint.after);
  }

  /** A well-formed expression is written as words separated by single blanks, some of them empty. */
  lemma {:induction false} ShowIsWords(e: Expr)
    requires WellFormed(e)
    ensures Show(e) == Join(Words(e), ' ') && AllWords(Words(e))
  {
    match e
    case License(id) =>
    case Excepted(id, joint, exception) =>
      JoinedWords([id], joint, [exception]);
    case And(l, joint, r) =>
      ShowIsWords(l);
      ShowIsWords(r);
      JoinedWords(Words(l), joint, Words(r));
    case Or(l, joint, r) =>
      ShowIsWords(l);
      ShowIsWords(r);
      JoinedWords(Words(l), joint, Words(r));
    case Paren(lead, inner, trail) =>
      ShowIsGroup(lead, inner, trail);
  }

  lemma ShowIsGroup(lead: nat, inner: Expr, trail: nat)
    requires WellFormed(inner)
    ensures Group(Show(Paren(lead, inner, trail)))
  {
    ShowBalances(inner);
    PaddedBalances(lead, Show(inner), trail);
    ParenBalances(Padded(lead, Show(inner), trail));
  }

  // ---------------------------------------------------------------- splitting at words

  /** The word lists between occurrences of an operator word. */
  function Cut(words: seq<string>, op: string): (r: seq<seq<string>>)
    ensures |r| >= 1
  {
    if words == [] then [[]]
    else
      var rest := Cut(words[1..], op);
      if Upper(words[0]) == op then [[]] + rest else [[words[0]] + rest[0]] + rest[1..]
  }

  /** A top-level word that has no blank is passed over whole. */
  lemma {:induction false} PassPlain(w: string, rest: string, current: string, delimiter: string)
    requires Unspaced(w) && |delimiter| > 0 && delimiter[0] == ' '
    ensures Pieces(w + rest, 0, current, delimiter) == Pieces(rest, 0, current + w, delimiter)
    decreases |w|
  {
    if w == "" {
      assert w + rest == rest && current + w == current;
    } else {
      var s := w + rest;
      assert s[0] == w[0] && s[1..] == w[1..] + rest;
      assert Upper(s)[0] == UpperChar(w[0]) != ' ';
      PassPlain(w[1..], rest, current + [w[0]], delimiter);
      assert current + [w[0]] + w[1..] == current + w;
    }
  }

  /** Inside parentheses nothing is split. */
  lemma {:induction false} PassNested(t: string, rest: string, depth: int, current: string, delimiter: string)
    requires Stays(t, depth, 1) && delimiter != ""
    ensures Pieces(t + rest, depth, current, delimiter) == Pieces(rest, depth + Net(t), current + t, delimiter)
    decreases |t|
  {
    if t == "" {
      assert t + rest == rest && current + t == current;
    } else {
      var s := t + rest;
      assert s[0] == t[0] && s[1..] == t[1..] + rest;
      PassNested(t[1..], rest, Move(t[0], depth), current + [t[0]], delimiter);
      assert current + [t[0]] + t[1..] == current + t;
    }
  }

  lemma PassGroup(w: string, rest: string, current: string, delimiter: string)
    requires Group(w) && delimiter != ""
    ensures Pieces(w + rest, 0, current, delimiter) == Pieces(rest, 0, current + w, delimiter)
  {
    var t := w[1..|w| - 1];
    assert w == "(" + t + ")";
    var s := w + rest;
    assert s[1..] == t + (")" + rest);
    PassNested(t, ")" + rest, 1, current + "(", delimiter);
    var s2 := ")" + rest;
    assert s2[1..] == rest;
    assert current + "(" + t + ")" == current + w;
  }

  lemma PassWord(w: string, rest: string, current: string, delimiter: string)
    requires Word(w) && |delimiter| > 0 && delimiter[0] == ' '
    ensures Pieces(w + rest, 0, current, delimiter) == Pieces(rest, 0, current + w, delimiter)
  {
    if Unspaced(w) {
      PassPlain(w, rest, current, delimiter);
    } else {
      PassGroup(w, rest, current, delimiter);
    }
  }

  function Delimiter(op: string): string {
    " " + op + " "
  }

  /** An operator in capitals. */
  predicate Capitals(op: string) {
    op != "" && forall i :: 0 <= i < |op| ==> 'A' <= op[i] <= 'Z'
  }

  predicate Ends(tail: string) {
    tail == "" || tail[0] == ' '
  }

  /** The upper-case text of a blank, a word and what follows. */
  lemma UpperSpaced(v: string, tail: string)
    ensures Upper(" " + v + tail) == " " + Upper(v) + Upper(tail)
  {
    var t := " " + v + tail;
    assert forall i :: 0 <= i < |v| ==> t[i + 1] == v[i];
    assert forall i :: 0 <= i < |tail| ==> t[1 + |v| + i] == tail[i];
  }

  /**
   * A blank, a word without blanks and a tail start with a delimiter exactly
   * when the word is the operator and a blank follows.
   */
  lemma DelimiterStarts(op: string, v: string, tail: string)
    requires op != "" && ' ' !in op && ' ' !in v && Ends(tail)
    ensures Delimiter(op) <= " " + v + tail <==> v == op && tail != ""
  {
    var d, u := Delimiter(op), " " + v + tail;
    if v == op && tail != "" {
      assert tail == " " + tail[1..];
      assert u == d + tail[1..];
    }
    if d <= u {
      DelimiterFits(op, v, tail);
    }
  }

  lemma DelimiterFits(op: string, v: string, tail: string)
    requires op != "" && ' ' !in op && ' ' !in v && Ends(tail) && Delimiter(op) <= " " + v + tail
    ensures v == op && tail != ""
  {
    var d, u := Delimiter(op), " " + v + tail;
    assert forall i :: 0 <= i < |d| ==> d[i] == u[i];
    assert d[1 + |op|] == ' ';
    assert forall i :: 0 <= i < |op| ==> d[1 + i] == op[i] && op[i] in op;
    assert forall i :: 0 <= i < |v| ==> u[1 + i] == v[i] && v[i] in v;
    assert tail != "" ==> u[1 + |v|] == tail[0];
    assert |v| == |op|;
    assert v == u[1..1 + |v|] == d[1..1 + |op|] == op;
  }

  lemma UpperPlain(v: string)
    requires Unspaced(v)
    ensures ' ' !in Upper(v)
  {
    assert forall i :: 0 <= i < |v| ==> Upper(v)[i] == UpperChar(v[i]);
  }

  /** A blank before a word starts a delimiter exactly when the word is the operator and another word follows. */
  lemma BlankMatches(op: string, v: string, tail: string)
    requires Capitals(op) && Word(v) && Ends(tail)
    ensures Delimiter(op) <= Upper(" " + v + tail) <==> Upper(v) == op && tail != ""
  {
    UpperSpaced(v, tail);
    if Unspaced(v) {
      UpperPlain(v);
      DelimiterStarts(op, Upper(v), Upper(tail));
    } else {
      GroupStartsNone(op, v, Upper(tail));
    }
  }

  lemma GroupStartsNone(op: string, v: string, tail: string)
    requires Capitals(op) && Word(v) && !Unspaced(v)
    ensures !(Delimiter(op) <= " " + Upper(v) + tail) && Upper(v) != op
  {
    var u := " " + Upper(v) + tail;
    assert Delimiter(op)[1] == op[0] && u[1] == UpperChar(v[0]);
  }

  /** Operator words stand only between other words. */
  predicate Placed(words: seq<string>, op: string)
    decreases |words|
  {
    && |words| >= 1 && Upper(words[0]) != op
    && (|words| > 1 ==>
          if Upper(words[1]) == op then |words| > 2 && Placed(words[2..], op) else Placed(words[1..], op))
  }

  function JoinAll(lists: seq<seq<string>>): (r: seq<string>)
    requires forall i :: 0 <= i < |lists| ==> lists[i] != []
    ensures |r| == |lists|
  {
    seq(|lists|, i requires 0 <= i < |lists| => Join(lists[i], ' '))
  }

  lemma CutAtOperator(words: seq<string>, op: string)
    requires |words| > 1 && Upper(words[0]) != op && Upper(words[1]) == op
    ensures Cut(words, op) == [[words[0]]] + Cut(words[2..], op)
  {
    assert words[1..][1..] == words[2..];
    assert Cut(words[1..], op) == [[]] + Cut(words[2..], op);
    assert [words[0]] + [] == [words[0]];
  }

  /** Between placed operators there are always words. */
  lemma {:induction false} CutsFilled(words: seq<string>, op: string)
    requires Placed(words, op)
    ensures forall i :: 0 <= i < |Cut(words, op)| ==> Cut(words, op)[i] != []
    decreases |words|
  {
    if |words| > 1 {
      if Upper(words[1]) == op {
        CutAtOperator(words, op);
        CutsFilled(words[2..], op);
      } else {
        CutsFilled(words[1..], op);
      }
    } else {
      assert words[1..] == [];
    }
  }

  /** The text after the first word. */
  function Rest(words: seq<string>): string
    requires |words| >= 1
  {
    if |words| == 1 then "" else " " + Join(words[1..], ' ')
  }

  lemma JoinRest(words: seq<string>)
    requires |words| >= 1
    ensures Join(words, ' ') == words[0] + Rest(words) && Ends(Rest(words))
  {
  }

  /** Splitting the text at a delimiter is cutting its words at the operator. */
  lemma {:induction false} PiecesOfWords(words: seq<string>, current: string, op: string)
    requires AllWords(words) && Placed(words, op) && Capitals(op)
    ensures forall i :: 0 <= i < |Cut(words, op)| ==> Cut(words, op)[i] != []
    ensures var parts := JoinAll(Cut(words, op));
            Pieces(Join(words, ' '), 0, current, Delimiter(op)) == [current + parts[0]] + parts[1..]
    decreases |words|
  {
    CutsFilled(words, op);
    if |words| == 1 {
      PiecesOfOne(words, current, op);
    } else {
      JoinRest(words);
      PassWord(words[0], Rest(words), current, Delimiter(op));
      MatchesNext(words, op);
      if Upper(words[1]) == op {
        PiecesAtOperator(words, current, op);
      } else {
        PiecesAtWord(words, current, op);
      }
    }
  }

  lemma RestNext(words: seq<string>)
    requires |words| > 1
    ensures Rest(words) == " " + words[1] + Rest(words[1..]) && Ends(Rest(words[1..]))
  {
    JoinRest(words[1..]);
  }

  lemma MatchesNext(words: seq<string>, op: string)
    requires AllWords(words) && Placed(words, op) && Capitals(op) && |words| > 1
    ensures Delimiter(op) <= Upper(Rest(words)) <==> Upper(words[1]) == op
  {
    RestNext(words);
    BlankMatches(op, words[1], Rest(words[1..]));
    if Upper(words[1]) == op {
      PlacedFollows(words, op);
    }
  }

  /** An operator is followed by another word. */
  lemma PlacedFollows(words: seq<string>, op: string)
    requires Placed(words, op) && |words| > 1 && Upper(words[1]) == op
    ensures Rest(words[1..]) != ""
  {
  }

  lemma PiecesOfOne(words: seq<string>, current: string, op: string)
    requires AllWords(words) && Capitals(op) && |words| == 1 && Upper(words[0]) != op
    ensures Cut(words, op) == [words]
    ensures Pieces(Join(words, ' '), 0, current, Delimiter(op)) == [current + words[0]]
  {
    assert words[1..] == [] && [words[0]] + [] == words;
    PassWord(words[0], "", current, Delimiter(op));
    assert words[0] + "" == words[0];
  }

  lemma {:induction false} PiecesAtOperator(words: seq<string>, current: string, op: string)
    requires AllWords(words) && Placed(words, op) && Capitals(op) && |words| > 1 && Upper(words[1]) == op
    requires forall i :: 0 <= i < |Cut(words, op)| ==> Cut(words, op)[i] != []
    requires Delimiter(op) <= Upper(Rest(words))
    requires Pieces(Join(words, ' '), 0, current, Delimiter(op))
                == Pieces(Rest(words), 0, current + words[0], Delimiter(op))
    ensures var parts := JoinAll(Cut(words, op));
            Pieces(Join(words, ' '), 0, current, Delimiter(op)) == [current + parts[0]] + parts[1..]
    decreases |words|, 0
  {
    var rest := words[2..];
    CutAtOperator(words, op);
    CutsFilled(rest, op);
    var parts, more := JoinAll(Cut(words, op)), JoinAll(Cut(rest, op));
    JoinAllHead(words[0], Cut(rest, op));
    PiecesOfWords(rest, "", op);
    assert "" + more[0] == more[0];
    assert Pieces(Join(rest, ' '), 0, "", Delimiter(op)) == more;
    RestAfterOperator(words, op);
  }

  lemma JoinAllHead(word: string, lists: seq<seq<string>>)
    requires forall i :: 0 <= i < |lists| ==> lists[i] != []
    ensures var all := [[word]] + lists;
            (forall i :: 0 <= i < |all| ==> all[i] != []) && JoinAll(all) == [word] + JoinAll(lists)
  {
  }

  lemma RestAfterOperator(words: seq<string>, op: string)
    requires |words| > 2 && Upper(words[1]) == op
    ensures |Delimiter(op)| <= |Rest(words)| && Rest(words)[0] == ' '
    ensures Rest(words)[|Delimiter(op)|..] == Join(words[2..], ' ')
  {
    assert words[1..][1..] == words[2..];
    assert Rest(words) == " " + words[1] + " " + Join(words[2..], ' ');
  }

  lemma {:induction false} PiecesAtWord(words: seq<string>, current: string, op: string)
    requires AllWords(words) && Placed(words, op) && Capitals(op) && |words| > 1 && Upper(words[1]) != op
    requires forall i :: 0 <= i < |Cut(words, op)| ==> Cut(words, op)[i] != []
    requires !(Delimiter(op) <= Upper(Rest(words)))
    requires Pieces(Join(words, ' '), 0, current, Delimiter(op))
                == Pieces(Rest(words), 0, current + words[0], Delimiter(op))
    ensures var parts := JoinAll(Cut(words, op));
            Pieces(Join(words, ' '), 0, current, Delimiter(op)) == [current + parts[0]] + parts[1..]
    decreases |words|, 0
  {
    var rest := words[1..];
    var carried := current + words[0] + " ";
    PiecesOfWords(rest, carried, op);
    var c := Cut(rest, op);
    JoinAllOnto(words[0], c);
    BlankPasses(Join(rest, ' '), current + words[0], Delimiter(op));
    assert carried + JoinAll(c)[0] == current + (words[0] + " " + JoinAll(c)[0]);
  }

  /** A word put in front of the first list. */
  lemma JoinAllOnto(word: string, lists: seq<seq<string>>)
    requires |lists| >= 1 && forall i :: 0 <= i < |lists| ==> lists[i] != []
    ensures var all := [[word] + lists[0]] + lists[1..];
            && (forall i :: 0 <= i < |all| ==> all[i] != [])
            && JoinAll(all) == [word + " " + JoinAll(lists)[0]] + JoinAll(lists)[1..]
  {
    JoinAppend([word], lists[0]);
  }

  /** A blank at which no delimiter starts. */
  lemma BlankPasses(rest: string, current: string, delimiter: string)
    requires delimiter != "" && !(delimiter <= Upper(" " + rest))
    ensures Pieces(" " + rest, 0, current, delimiter) == Pieces(rest, 0, current + " ", delimiter)
  {
    assert (" " + rest)[1..] == rest;
  }

  // ---------------------------------------------------------------- the operands of a tree

  /** The operands an operator joins at the top of a tree. */
  function Operands(e: Expr, op: string): (r: seq<Expr>)
    ensures |r| >= 1
  {
    if e.Or? && op == "OR" then Operands(e.left, op) + Operands(e.right, op)
    else if e.And? && op == "AND" then Operands(e.left, op) + Operands(e.right, op)
    else [e]
  }

  /** The words of an operand, with empty ones around them. */
  ghost predicate WordsAround(words: seq<string>, e: Expr) {
    exists lead: nat, trail: nat :: words == PaddedWords(lead, Words(e), trail)
  }

  ghost predicate WordsOfAll(lists: seq<seq<string>>, es: seq<Expr>) {
    |lists| == |es| && forall i :: 0 <= i < |es| ==> WordsAround(lists[i], es[i])
  }

  predicate Without(words: seq<string>, op: string) {
    forall i :: 0 <= i < |words| ==> Upper(words[i]) != op
  }

  lemma GroupIsNoOperator(w: string, op: string)
    requires Group(w) && Capitals(op)
    ensures Upper(w) != op
  {
    assert Upper(w)[0] == '(';
  }

  lemma JointWithout(a: seq<string>, joint: Joint, b: seq<string>, op: string)
    requires Without(a, op) && Without(b, op) && Upper(joint.word) != op && op != ""
    ensures Without(a + JointWords(joint) + b, op)
  {
    assert Upper("") == "";
  }

  /** The operator words of an expression that the operator does not join lie inside groups. */
  lemma {:induction false} NoOperatorWords(e: Expr, op: string)
    requires WellFormed(e) && (op == "OR" || op == "AND") && !e.Or? && (op == "AND" ==> !e.And?)
    ensures Without(Words(e), op)
  {
    match e
    case License(id) =>
    case Excepted(id, joint, exception) =>
      assert "WITH"[0] != op[0];
      JointWithout([id], joint, [exception], op);
    case And(l, joint, r) =>
      assert "AND"[0] != op[0];
      NoOperatorWords(l, op);
      NoOperatorWords(r, op);
      JointWithout(Words(l), joint, Words(r), op);
    case Paren(lead, inner, trail) =>
      ShowIsGroup(lead, inner, trail);
      GroupIsNoOperator(Show(e), op);
  }

  lemma {:induction false} CutWithout(words: seq<string>, op: string)
    requires |words| >= 1 && Without(words, op)
    ensures Cut(words, op) == [words] && Placed(words, op)
    decreases |words|
  {
    if |words| == 1 {
      assert words[1..] == [] && [words[0]] + [] == words;
    } else {
      CutWithout(words[1..], op);
      assert [words[0]] + words[1..] == words;
    }
  }

  lemma {:induction false} CutAppend(a: seq<string>, word: string, b: seq<string>, op: string)
    requires Upper(word) == op
    ensures Cut(a + [word] + b, op) == Cut(a, op) + Cut(b, op)
    decreases |a|
  {
    var all := a + [word] + b;
    if a == [] {
      assert all[1..] == b;
    } else {
      assert all[1..] == a[1..] + [word] + b;
      CutAppend(a[1..], word, b, op);
    }
  }

  lemma {:induction false} PlacedAppend(a: seq<string>, word: string, b: seq<string>, op: string)
    requires Placed(a, op) && Placed(b, op) && Upper(word) == op
    ensures Placed(a + [word] + b, op)
    decreases |a|
  {
    var all := a + [word] + b;
    if |a| == 1 {
      assert all[2..] == b;
    } else if Upper(a[1]) == op {
      assert all[2..] == a[2..] + [word] + b;
      PlacedAppend(a[2..], word, b, op);
    } else {
      assert all[1..] == a[1..] + [word] + b;
      PlacedAppend(a[1..], word, b, op);
    }
  }

  predicate Joins(e: Expr, op: string) {
    (e.Or? && op == "OR") || (e.And? && op == "AND")
  }

  lemma {:induction false} CutLeading(n: nat, words: seq<string>, op: string)
    requires op != ""
    ensures var c := Cut(words, op); Cut(Empties(n) + words, op) == [Empties(n) + c[0]] + c[1..]
    ensures Placed(words, op) ==> Placed(Empties(n) + words, op)
    decreases n
  {
    var c, all := Cut(words, op), Empties(n) + words;
    if n == 0 {
      assert all == words && Empties(n) + c[0] == c[0];
    } else {
      CutLeading(n - 1, words, op);
      assert all[1..] == Empties(n - 1) + words && all[0] == "";
      assert Upper("") == "";
      assert [""] + (Empties(n - 1) + c[0]) == Empties(n) + c[0];
    }
  }

  /** Empty words at the end belong to the last list. */
  function Extended(lists: seq<seq<string>>, n: nat): seq<seq<string>>
    requires |lists| >= 1
  {
    lists[..|lists| - 1] + [lists[|lists| - 1] + Empties(n)]
  }

  /** A word at the start belongs to the first list. */
  function Onto(word: string, lists: seq<seq<string>>): seq<seq<string>>
    requires |lists| >= 1
  {
    [[word] + lists[0]] + lists[1..]
  }

  lemma OntoExtended(word: string, lists: seq<seq<string>>, n: nat)
    requires |lists| >= 1
    ensures Onto(word, Extended(lists, n)) == Extended(Onto(word, lists), n)
  {
    if |lists| == 1 {
      assert [word] + (lists[0] + Empties(n)) == [word] + lists[0] + Empties(n);
    }
  }

  lemma ExtendedTail(list: seq<string>, lists: seq<seq<string>>, n: nat)
    requires |lists| >= 1
    ensures [list] + Extended(lists, n) == Extended([list] + lists, n)
  {
  }

  lemma {:induction false} CutTrailing(words: seq<string>, n: nat, op: string)
    requires op != "" && Placed(words, op)
    ensures Cut(words + Empties(n), op) == Extended(Cut(words, op), n)
    ensures Placed(words + Empties(n), op)
    decreases |words|
  {
    var all := words + Empties(n);
    if |words| == 1 {
      CutTrailingOne(words[0], n, op);
      assert words == [words[0]];
    } else if Upper(words[1]) == op {
      CutAtOperator(words, op);
      CutAtOperator(all, op);
      assert all[2..] == words[2..] + Empties(n);
      CutTrailing(words[2..], n, op);
      ExtendedTail([words[0]], Cut(words[2..], op), n);
    } else {
      assert all[1..] == words[1..] + Empties(n);
      CutTrailing(words[1..], n, op);
      OntoExtended(words[0], Cut(words[1..], op), n);
    }
  }

  lemma CutTrailingOne(word: string, n: nat, op: string)
    requires op != "" && Upper(word) != op
    ensures Cut([word] + Empties(n), op) == Extended(Cut([word], op), n) && Placed([word] + Empties(n), op)
  {
    var all := [word] + Empties(n);
    CutEmpties(n, op);
    assert all[1..] == Empties(n) && [word][1..] == [];
    assert Cut([word], op) == [[word] + []] && [word] + [] == [word];
    assert Upper("") == "";
  }

  lemma {:induction false} CutEmpties(n: nat, op: string)
    requires op != ""
    ensures Cut(Empties(n), op) == [Empties(n)] && (n > 0 ==> Placed(Empties(n), op))
    decreases n
  {
    if n > 0 {
      CutEmpties(n - 1, op);
      assert Empties(n)[1..] == Empties(n - 1) && Empties(n)[0] == "" && Upper("") == "";
      assert [""] + Empties(n - 1) == Empties(n);
    }
  }

  lemma PaddedTwice(lead: nat, l: nat, words: seq<string>, t: nat, trail: nat)
    ensures PaddedWords(lead, PaddedWords(l, words, t), trail) == PaddedWords(lead + l, words, t + trail)
  {
  }

  lemma WordsAroundMore(lead: nat, words: seq<string>, trail: nat, e: Expr)
    requires WordsAround(words, e)
    ensures WordsAround(PaddedWords(lead, words, trail), e)
  {
    var l: nat, t: nat :| words == PaddedWords(l, Words(e), t);
    PaddedTwice(lead, l, Words(e), t, trail);
  }

  lemma FirstPadded(n: nat, lists: seq<seq<string>>, es: seq<Expr>)
    requires |lists| >= 1 && WordsOfAll(lists, es)
    ensures WordsOfAll([Empties(n) + lists[0]] + lists[1..], es)
  {
    WordsAroundMore(n, lists[0], 0, es[0]);
    assert PaddedWords(n, lists[0], 0) == Empties(n) + lists[0];
  }

  lemma LastPadded(lists: seq<seq<string>>, n: nat, es: seq<Expr>)
    requires |lists| >= 1 && WordsOfAll(lists, es)
    ensures WordsOfAll(Extended(lists, n), es)
  {
    WordsAroundMore(0, lists[|lists| - 1], n, es[|lists| - 1]);
    assert PaddedWords(0, lists[|lists| - 1], n) == lists[|lists| - 1] + Empties(n);
  }

  lemma JointBetween(a: seq<string>, joint: Joint, b: seq<string>)
    ensures a + JointWords(joint) + b == (a + Empties(joint.before)) + [joint.word] + (Empties(joint.after) + b)
  {
  }

  lemma WordsOfBoth(a: seq<seq<string>>, es: seq<Expr>, b: seq<seq<string>>, fs: seq<Expr>)
    requires WordsOfAll(a, es) && WordsOfAll(b, fs)
    ensures WordsOfAll(a + b, es + fs)
  {
  }

  /** Cutting the words of a joined expression at its operator. */
  lemma CutJoined(a: seq<string>, joint: Joint, b: seq<string>, op: string, es: seq<Expr>, fs: seq<Expr>)
    requires Spells(joint, op) && op != "" && Placed(a, op) && Placed(b, op)
    requires WordsOfAll(Cut(a, op), es) && WordsOfAll(Cut(b, op), fs)
    ensures WordsOfAll(Cut(a + JointWords(joint) + b, op), es + fs) && Placed(a + JointWords(joint) + b, op)
  {
    var front, back := a + Empties(joint.before), Empties(joint.after) + b;
    JointBetween(a, joint, b);
    CutTrailing(a, joint.before, op);
    CutLeading(joint.after, b, op);
    CutAppend(front, joint.word, back, op);
    PlacedAppend(front, joint.word, back, op);
    LastPadded(Cut(a, op), joint.before, es);
    FirstPadded(joint.after, Cut(b, op), fs);
    WordsOfBoth(Cut(front, op), es, Cut(back, op), fs);
  }

  /** Cutting the words of a tree at an operator gives the words of its operands. */
  lemma {:induction false} CutIsOperands(e: Expr, op: string)
    requires WellFormed(e) && (op == "OR" || (op == "AND" && !e.Or?))
    ensures WordsOfAll(Cut(Words(e), op), Operands(e, op)) && Placed(Words(e), op)
  {
    if Joins(e, op) {
      CutIsOperands(e.left, op);
      CutIsOperands(e.right, op);
      CutJoined(Words(e.left), e.joint, Words(e.right), op, Operands(e.left, op), Operands(e.right, op));
    } else {
      NoOperatorWords(e, op);
      CutWithout(Words(e), op);
      assert Words(e) == PaddedWords(0, Words(e), 0);
      assert WordsAround(Words(e), e);
    }
  }

  lemma {:induction false} OperandsWellFormed(e: Expr, op: string)
    requires WellFormed(e)
    ensures forall i :: 0 <= i < |Operands(e, op)| ==>
              WellFormed(Operands(e, op)[i]) && |Show(Operands(e, op)[i])| <= |Show(e)|
    ensures |Operands(e, op)| == 1 ==> Operands(e, op) == [e]
  {
    if (e.Or? && op == "OR") || (e.And? && op == "AND") {
      OperandsWellFormed(e.left, op);
      OperandsWellFormed(e.right, op);
    }
  }

  function ShowAll(es: seq<Expr>): seq<string> {
    seq(|es|, i requires 0 <= i < |es| => Show(es[i]))
  }

  // ---------------------------------------------------------------- edges and trimming

  predicate Tight(s: string) {
    s != "" && !IsSpace(s[0]) && !IsSpace(s[|s| - 1])
  }

  lemma TightTrim(s: string)
    requires Tight(s)
    ensures Trim(s) == s
  {
  }

  lemma {:induction false} ShowTight(e: Expr)
    requires WellFormed(e)
    ensures Tight(Show(e))
  {
    match e
    case License(id) =>
    case Excepted(id, joint, exception) =>
    case And(l, joint, r) =>
      ShowTight(l);
      ShowTight(r);
    case Or(l, joint, r) =>
      ShowTight(l);
      ShowTight(r);
    case Paren(lead, inner, trail) =>
  }

  predicate WhiteSpace(s: string) {
    forall i :: 0 <= i < |s| ==> IsSpace(s[i])
  }

  lemma {:induction false} TrimEndSpaces(s: string, trail: string)
    requires Tight(s) && WhiteSpace(trail)
    ensures TrimEnd(s + trail) == s
    decreases |trail|
  {
    var t := s + trail;
    if trail == "" {
      assert t == s;
    } else {
      assert t[..|t| - 1] == s + trail[..|trail| - 1];
      TrimEndSpaces(s, trail[..|trail| - 1]);
    }
  }

  lemma {:induction false} TrimStartSpaces(lead: string, s: string)
    requires s != "" && !IsSpace(s[0]) && WhiteSpace(lead)
    ensures TrimStart(lead + s) == s
    decreases |lead|
  {
    if lead == "" {
      assert lead + s == s;
    } else {
      assert (lead + s)[1..] == lead[1..] + s;
      TrimStartSpaces(lead[1..], s);
    }
  }

  /** White space around a text is trimmed off. */
  lemma TrimSpaces(lead: string, s: string, trail: string)
    requires Tight(s) && WhiteSpace(lead) && WhiteSpace(trail)
    ensures Trim(lead + s + trail) == s
  {
    assert lead + s + trail == lead + (s + trail);
    TrimStartSpaces(lead, s + trail);
    TrimEndSpaces(s, trail);
  }

  lemma TrimPadded(lead: nat, s: string, trail: nat)
    requires Tight(s)
    ensures Trim(Padded(lead, s, trail)) == s
  {
    TrimSpaces(Blanks(lead), s, Blanks(trail));
  }

  lemma {:induction false} KeptTrims(pieces: seq<string>, parts: seq<string>)
    requires |pieces| == |parts|
    requires forall i :: 0 <= i < |pieces| ==> Trim(pieces[i]) == parts[i] && parts[i] != ""
    ensures Kept(pieces) == parts
  {
    if pieces != [] {
      KeptTrims(pieces[1..], parts[1..]);
    }
  }

  // ---------------------------------------------------------------- unwrapping

  /** The text is a way to write the expression, with any white space around it. */
  predicate Writes(s: string, e: Expr) {
    WellFormed(e) && Trim(s) == Show(e)
  }

  /** The tree without its outer parentheses. */
  function Bare(e: Expr): (r: Expr)
    ensures !r.Paren?
  {
    if e.Paren? then Bare(e.inner) else e
  }

  lemma {:induction false} NestedBalanced(t: string, depth: int)
    requires Stays(t, depth, 1) && depth + Net(t) == 1
    ensures BalancedFrom(t + ")", depth)
    decreases |t|
  {
    var s := t + ")";
    if t == "" {
      assert s[1..] == "";
    } else {
      assert s[0] == t[0] && s[1..] == t[1..] + ")";
      NestedBalanced(t[1..], Move(t[0], depth));
    }
  }

  lemma {:induction false} NestedNotBalanced(t: string, rest: string, depth: int)
    requires Stays(t, depth, 1) && depth + Net(t) == 1 && rest != ""
    ensures !BalancedFrom(t + ")" + rest, depth)
    decreases |t|
  {
    var s := t + ")" + rest;
    if t != "" {
      assert s[0] == t[0] && s[1..] == t[1..] + ")" + rest;
      NestedNotBalanced(t[1..], rest, Move(t[0], depth));
    }
  }

  lemma GroupWrapped(w: string)
    requires Group(w)
    ensures Wrapped(w)
  {
    var t := w[1..|w| - 1];
    NestedBalanced(t, 1);
    assert w[1..] == t + ")";
  }

  lemma GroupThenMore(w: string, rest: string)
    requires Group(w) && rest != ""
    ensures !Wrapped(w + rest)
  {
    var t, s := w[1..|w| - 1], w + rest;
    NestedNotBalanced(t, rest, 1);
    assert s[1..] == t + ")" + rest;
    assert s[0] == '(';
  }

  /** A text of several words is not one group, even if it begins and ends with parentheses. */
  lemma WordsNotWrapped(words: seq<string>)
    requires AllWords(words) && |words| >= 1 && words[0] != "" && (|words| == 1 ==> Plain(words[0]))
    ensures !Wrapped(Join(words, ' '))
  {
    JoinRest(words);
    if Plain(words[0]) {
      assert Join(words, ' ')[0] == words[0][0];
    } else {
      GroupThenMore(words[0], Rest(words));
    }
  }

  lemma BareNotWrapped(e: Expr)
    requires WellFormed(e) && !e.Paren?
    ensures !Wrapped(Show(e))
  {
    ShowIsWords(e);
    ShowTight(e);
    JoinRest(Words(e));
    WordsNotWrapped(Words(e));
  }

  lemma {:induction false} PeelShow(e: Expr)
    requires WellFormed(e)
    ensures Peel(Show(e)) == Show(Bare(e)) && WellFormed(Bare(e))
  {
    if e.Paren? {
      ShowIsGroup(e.lead, e.inner, e.trail);
      GroupWrapped(Show(e));
      ShowTight(e.inner);
      var s := Show(e);
      assert s[1..|s| - 1] == Padded(e.lead, Show(e.inner), e.trail);
      TrimPadded(e.lead, Show(e.inner), e.trail);
      PeelShow(e.inner);
    } else {
      BareNotWrapped(e);
    }
  }

  lemma UnwrapShow(s: string, e: Expr)
    requires Writes(s, e)
    ensures Unwrap(s) == Show(Bare(e)) && WellFormed(Bare(e))
  {
    PeelShow(e);
  }

  lemma OperandWritten(words: seq<string>, e: Expr)
    requires WellFormed(e) && WordsAround(words, e)
    ensures words != [] && Trim(Join(words, ' ')) == Show(e) && Show(e) != ""
  {
    var lead: nat, trail: nat :| words == PaddedWords(lead, Words(e), trail);
    ShowIsWords(e);
    ShowTight(e);
    JoinPadded(lead, Words(e), trail);
    TrimPadded(lead, Show(e), trail);
  }

  /** Trimming the pieces gives the operands as they are written. */
  lemma OperandsWritten(lists: seq<seq<string>>, es: seq<Expr>)
    requires WordsOfAll(lists, es) && forall i :: 0 <= i < |es| ==> WellFormed(es[i])
    ensures forall i :: 0 <= i < |lists| ==> lists[i] != []
    ensures Kept(JoinAll(lists)) == ShowAll(es)
  {
    forall i | 0 <= i < |es|
      ensures lists[i] != [] && Trim(Join(lists[i], ' ')) == Show(es[i]) && Show(es[i]) != ""
    {
      OperandWritten(lists[i], es[i]);
    }
    KeptTrims(JoinAll(lists), ShowAll(es));
  }

  lemma PiecesOfBare(b: Expr, op: string)
    requires WellFormed(b) && (op == "OR" || (op == "AND" && !b.Or?))
    ensures Kept(Pieces(Show(b), 0, "", Delimiter(op))) == ShowAll(Operands(b, op))
  {
    ShowIsWords(b);
    CutIsOperands(b, op);
    PiecesOfWords(Words(b), "", op);
    OperandsWellFormed(b, op);
    OperandsWritten(Cut(Words(b), op), Operands(b, op));
    FirstPiece(JoinAll(Cut(Words(b), op)));
  }

  lemma FirstPiece(parts: seq<string>)
    requires |parts| >= 1
    ensures ["" + parts[0]] + parts[1..] == parts
  {
    assert "" + parts[0] == parts[0];
  }

  /** Splitting the written form of a tree gives the written forms of its operands. */
  lemma PartsAreOperands(s: string, e: Expr, op: string)
    requires Writes(s, e) && (op == "OR" || (op == "AND" && !Bare(e).Or?))
    ensures Parts(s, Delimiter(op)) == ShowAll(Operands(Bare(e), op))
  {
    UnwrapShow(s, e);
    PiecesOfBare(Bare(e), op);
  }

  // ---------------------------------------------------------------- single licences

  lemma {:induction false} IndexPastPlain(w: string, rest: string, word: string)
    requires (forall i :: 0 <= i < |w| ==> w[i] != ' ') && |word| > 0 && word[0] == ' '
    ensures IndexOf(w + rest, word) == match IndexOf(rest, word) case None => None case Some(i) => Some(|w| + i)
    decreases |w|
  {
    if w == "" {
      assert w + rest == rest;
    } else {
      var s := w + rest;
      assert s[0] == w[0] && s[1..] == w[1..] + rest;
      IndexPastPlain(w[1..], rest, word);
    }
  }

  lemma UpperAppend(a: string, b: string)
    ensures Upper(a + b) == Upper(a) + Upper(b)
  {
  }

  lemma StripLicense(id: string)
    requires Identifier(id)
    ensures StripWith(id) == id
  {
    IndexPastPlain(Upper(id), "", WITH);
    assert Upper(id) + "" == Upper(id);
    TightTrim(id);
  }

  /** Blanks before a delimiter are skipped one by one: its word starts with no blank. */
  lemma {:induction false} IndexPastBlanks(n: nat, word: string, rest: string)
    requires |word| > 1 && word[0] == ' ' && word[1] != ' '
    ensures IndexOf(Blanks(n) + (word + rest), word) == Some(n)
    decreases n
  {
    var s := Blanks(n) + (word + rest);
    if n == 0 {
      assert s == word + rest;
    } else {
      assert s[1..] == Blanks(n - 1) + (word + rest);
      assert s[1] == ' ';
      IndexPastBlanks(n - 1, word, rest);
    }
  }

  lemma UpperBlanks(n: nat)
    ensures Upper(Blanks(n)) == Blanks(n)
  {
  }

  /** In capitals, what follows the identifier is blanks and then the delimiter. */
  lemma UpperException(joint: Joint, exception: string) returns (rest: string)
    requires Upper(joint.word) == "WITH"
    ensures Upper(" " + JointText(joint) + " " + exception) == Blanks(joint.before) + (WITH + rest)
  {
    var after := Blanks(joint.after) + exception;
    rest := Upper(after);
    assert Blanks(joint.after) + " " == " " + Blanks(joint.after);
    assert " " + Blanks(joint.before) == Blanks(joint.before) + " ";
    var middle := " " + joint.word + " ";
    assert " " + JointText(joint) + " " + exception == Blanks(joint.before) + (middle + after) by {
      assert " " + JointText(joint) + " " + exception
             == (" " + Blanks(joint.before)) + joint.word + (Blanks(joint.after) + " ") + exception;
    }
    UpperAppend(Blanks(joint.before), middle + after);
    UpperBlanks(joint.before);
    UpperAppend(middle, after);
    UpperSpaced(joint.word, " ");
  }

  lemma WithAt(id: string, tail: string, n: nat, rest: string)
    requires Identifier(id) && Upper(tail) == Blanks(n) + (WITH + rest)
    ensures IndexOf(Upper(id + tail), WITH) == Some(|id| + n)
  {
    UpperAppend(id, tail);
    TailIndex(Upper(tail), n, rest);
    IndexPastPlain(Upper(id), Upper(tail), WITH);
  }

  lemma TailIndex(tail: string, n: nat, rest: string)
    requires tail == Blanks(n) + (WITH + rest)
    ensures IndexOf(tail, WITH) == Some(n)
  {
    IndexPastBlanks(n, WITH, rest);
  }

  /** A token whose exception starts after blanks is cut there, and trimmed. */
  lemma StripAt(id: string, tail: string, n: nat, rest: string)
    requires Identifier(id) && Upper(tail) == Blanks(n) + (WITH + rest) && Blanks(n) <= tail
    ensures StripWith(id + tail) == id
  {
    WithAt(id, tail, n, rest);
    assert (id + tail)[..|id| + n] == Padded(0, id, n);
    TrimPadded(0, id, n);
  }

  lemma StripExcepted(id: string, joint: Joint, exception: string)
    requires Identifier(id) && Upper(joint.word) == "WITH"
    ensures StripWith(Spaced(id, JointText(joint), exception)) == id
  {
    var tail := " " + JointText(joint) + " " + exception;
    assert Spaced(id, JointText(joint), exception) == id + tail;
    var rest := UpperException(joint, exception);
    assert Blanks(joint.before) <= tail;
    StripAt(id, tail, joint.before, rest);
  }

  // ---------------------------------------------------------------- meaning

  function EvalAll(es: seq<Expr>, token: string -> Verdict): seq<Verdict> {
    seq(|es|, i requires 0 <= i < |es| => Eval(es[i], token))
  }

  lemma {:induction false} FirstFailureAppend(a: seq<Verdict>, b: seq<Verdict>)
    ensures FirstFailure(a + b) == if FirstFailure(a).Some? then FirstFailure(a) else FirstFailure(b)
    decreases |a|
  {
    if a == [] {
      assert a + b == b;
    } else {
      assert (a + b)[1..] == a[1..] + b;
      FirstFailureAppend(a[1..], b);
    }
  }

  lemma AnyPassesAppend(a: seq<Verdict>, b: seq<Verdict>)
    requires a != [] && b != []
    ensures AnyPasses(a + b) == if AnyPasses(a).None? || AnyPasses(b).None? then None else AnyPasses(a)
  {
    assert None in a + b <==> None in a || None in b;
    assert (a + b)[0] == a[0];
  }

  lemma EvalBoth(a: seq<Expr>, b: seq<Expr>, token: string -> Verdict)
    ensures EvalAll(a + b, token) == EvalAll(a, token) + EvalAll(b, token)
  {
  }

  /** Nested operators of one kind mean the flat list of their operands. */
  lemma {:induction false} EvalIsFlat(e: Expr, op: string, token: string -> Verdict)
    requires op == "OR" || op == "AND"
    ensures op == "OR" ==> AnyPasses(EvalAll(Operands(e, op), token)) == Eval(e, token)
    ensures op == "AND" ==> FirstFailure(EvalAll(Operands(e, op), token)) == Eval(e, token)
  {
    if Joins(e, op) {
      EvalIsFlat(e.left, op, token);
      EvalIsFlat(e.right, op, token);
      var a, b := Operands(e.left, op), Operands(e.right, op);
      EvalBoth(a, b, token);
      if op == "OR" {
        AnyPassesAppend(EvalAll(a, token), EvalAll(b, token));
      } else {
        FirstFailureAppend(EvalAll(a, token), EvalAll(b, token));
      }
    } else {
      assert Operands(e, op) == [e];
      assert EvalAll([e], token) == [Eval(e, token)];
      assert FirstFailure([Eval(e, token)]) == Eval(e, token);
    }
  }

  lemma {:induction false} ClassifyAllAt(whole: string, delimiter: string, parts: seq<string>, token: string -> Verdict,
                                         i: nat)
    requires delimiter != "" && |Parts(whole, delimiter)| > 1 && i < |parts|
    requires forall k :: 0 <= k < |parts| ==> parts[k] in Parts(whole, delimiter)
    ensures ClassifyAll(whole, delimiter, parts, token)[i] == Classify(parts[i], token)
    decreases |parts|
  {
    if i > 0 {
      ClassifyAllAt(whole, delimiter, parts[1..], token, i - 1);
    }
  }

  lemma ClassifyEach(whole: string, delimiter: string, parts: seq<string>, es: seq<Expr>, token: string -> Verdict)
    requires delimiter != "" && |Parts(whole, delimiter)| > 1
    requires forall k :: 0 <= k < |parts| ==> parts[k] in Parts(whole, delimiter)
    requires |parts| == |es| && forall i :: 0 <= i < |es| ==> Classify(parts[i], token) == Eval(es[i], token)
    ensures ClassifyAll(whole, delimiter, parts, token) == EvalAll(es, token)
  {
    forall i | 0 <= i < |es| ensures ClassifyAll(whole, delimiter, parts, token)[i] == Eval(es[i], token) {
      ClassifyAllAt(whole, delimiter, parts, token, i);
    }
  }

  lemma {:induction false} BareMeansTheSame(e: Expr, token: string -> Verdict)
    ensures Eval(Bare(e), token) == Eval(e, token)
  {
    if e.Paren? {
      BareMeansTheSame(e.inner, token);
    }
  }

  lemma ShowWrites(e: Expr)
    requires WellFormed(e)
    ensures Writes(Show(e), e)
  {
    ShowTight(e);
    TightTrim(Show(e));
  }

  /** At one operator: the parts are the operands, and by induction they mean what the operands mean. */
  lemma {:induction false} ClassifyOperands(s: string, e: Expr, op: string, token: string -> Verdict)
    requires Writes(s, e) && (op == "OR" || (op == "AND" && !Bare(e).Or?)) && Joins(Bare(e), op)
    ensures var parts := Parts(s, Delimiter(op));
            |parts| > 1 && ClassifyAll(s, Delimiter(op), parts, token) == EvalAll(Operands(Bare(e), op), token)
    decreases |s|, 0
  {
    UnwrapShow(s, e);
    PartsAreOperands(s, e, op);
    OperandsWellFormed(Bare(e), op);
    var operands := Operands(Bare(e), op);
    assert |operands| > 1;
    var parts := Parts(s, Delimiter(op));
    forall i | 0 <= i < |operands| ensures Classify(parts[i], token) == Eval(operands[i], token) {
      assert parts[i] == Show(operands[i]);
      PartsShorter(s, Delimiter(op), parts[i]);
      ShowWrites(operands[i]);
      ClassifyMeansEval(parts[i], operands[i], token);
    }
    ClassifyEach(s, Delimiter(op), parts, operands, token);
  }

  /**
   * The evaluator means what the syntax tree means: for every well-formed
   * expression, however its operators are capitalised, with any redundant
   * parentheses and one or more blanks on either side of each operator.
   */
  lemma {:induction false} ClassifyMeansEval(s: string, e: Expr, token: string -> Verdict)
    requires Writes(s, e)
    ensures Classify(s, token) == Eval(e, token)
    decreases |s|, 1
  {
    var b := Bare(e);
    UnwrapShow(s, e);
    BareMeansTheSame(e, token);
    assert OR == Delimiter("OR") && AND == Delimiter("AND");
    if b.Or? {
      ClassifyOperands(s, e, "OR", token);
      EvalIsFlat(b, "OR", token);
    } else {
      PartsAreOperands(s, e, "OR");
      assert Operands(b, "OR") == [b];
      if b.And? {
        ClassifyOperands(s, e, "AND", token);
        EvalIsFlat(b, "AND", token);
      } else {
        PartsAreOperands(s, e, "AND");
        assert Operands(b, "AND") == [b];
        SingleMeansEval(b, token);
      }
    }
  }

  lemma SingleMeansEval(e: Expr, token: string -> Verdict)
    requires WellFormed(e) && (e.License? || e.Excepted?)
    ensures token(StripWith(Show(e))) == Eval(e, token)
  {
    if e.License? {
      StripLicense(e.id);
    } else {
      StripExcepted(e.id, e.joint, e.exception);
    }
  }

  // ---------------------------------------------------------------- what stands beside an operator

  /** An operator with any white space before and after it, or none. */
  function Beside(before: string, word: string, after: string): string {
    before + word + after
  }

  /** A blank, and not some other white space, on both sides of the operator. */
  predicate Separated(before: string, after: string) {
    before != "" && before[|before| - 1] == ' ' && after != "" && after[0] == ' '
  }

  /** An operand of one word: an identifier or a group. */
  predicate Operand(w: string) {
    Identifier(w) || Group(w)
  }

  /** White space may be missing only beside a parenthesis. */
  predicate Stands(a: string, before: string, word: string, after: string, b: string) {
    && Operand(a) && Operand(b) && Plain(word) && WhiteSpace(before) && WhiteSpace(after)
    && (before == "" ==> Group(a)) && (after == "" ==> Group(b))
  }

  predicate NowhereIn(space: string, rest: string, delimiter: string) {
    forall i :: 0 <= i < |space| ==> !(delimiter <= Upper(space[i..] + rest))
  }

  /** White space in which the delimiter starts nowhere is passed over. */
  lemma {:induction false} PassSpaces(space: string, rest: string, current: string, delimiter: string)
    requires WhiteSpace(space) && delimiter != "" && NowhereIn(space, rest, delimiter)
    ensures Pieces(space + rest, 0, current, delimiter) == Pieces(rest, 0, current + space, delimiter)
    decreases |space|
  {
    if space == "" {
      assert space + rest == rest && current + space == current;
    } else {
      var s := space + rest;
      assert s == space[0..] + rest && s[0] == space[0] && s[1..] == space[1..] + rest;
      forall i | 0 <= i < |space[1..]| ensures !(delimiter <= Upper(space[1..][i..] + rest)) {
        assert space[1..][i..] == space[i + 1..];
      }
      PassSpaces(space[1..], rest, current + [space[0]], delimiter);
      assert current + [space[0]] + space[1..] == current + space;
    }
  }

  /** Where the second character is no letter of the operator, the delimiter does not start. */
  lemma NotHere(s: string, op: string)
    requires Capitals(op) && |s| >= 2 && (IsSpace(s[1]) || s[1] == '(')
    ensures !(Delimiter(op) <= Upper(s))
  {
    assert Delimiter(op)[1] == op[0] && Upper(s)[1] == UpperChar(s[1]);
  }

  lemma FirstMustBeBlank(s: string, op: string)
    requires s != "" && IsSpace(s[0]) && s[0] != ' '
    ensures !(Delimiter(op) <= Upper(s))
  {
    assert Upper(s)[0] == UpperChar(s[0]);
  }

  /** Only the last place of white space can start a delimiter. */
  lemma NowhereBut(space: string, rest: string, op: string)
    requires Capitals(op) && WhiteSpace(space)
    requires space != "" ==> !(Delimiter(op) <= Upper([space[|space| - 1]] + rest))
    ensures NowhereIn(space, rest, Delimiter(op))
  {
    forall i | 0 <= i < |space| ensures !(Delimiter(op) <= Upper(space[i..] + rest)) {
      if i == |space| - 1 {
        assert space[i..] == [space[|space| - 1]];
      } else {
        assert (space[i..] + rest)[1] == space[i + 1];
        NotHere(space[i..] + rest, op);
      }
    }
  }

  /** White space before an operand at the end of the text holds no delimiter. */
  lemma NotBeforeLast(space: string, b: string, op: string)
    requires Capitals(op) && WhiteSpace(space) && Operand(b) && (op == "OR" || op == "AND")
    ensures NowhereIn(space, b, Delimiter(op))
  {
    if space != "" {
      var c := space[|space| - 1];
      if c == ' ' {
        BlankMatches(op, b, "");
        assert " " + b + "" == [c] + b;
      } else {
        FirstMustBeBlank([c] + b, op);
      }
    }
    NowhereBut(space, b, op);
  }

  /** A blank and a word start a delimiter exactly when the word is the operator and a blank follows. */
  lemma WordMatches(op: string, v: string, tail: string)
    requires Capitals(op) && Plain(v) && tail != "" && (IsSpace(tail[0]) || tail[0] == '(')
    ensures Delimiter(op) <= Upper(" " + v + tail) <==> Upper(v) == op && tail[0] == ' '
  {
    if tail[0] == ' ' {
      BlankMatches(op, v, tail);
    } else {
      UpperSpaced(v, tail);
      UpperPlain(v);
      OddTail(op, Upper(v), Upper(tail));
    }
  }

  lemma OddTail(op: string, v: string, tail: string)
    requires Capitals(op) && ' ' !in v && tail != "" && tail[0] != ' ' && !('A' <= tail[0] <= 'Z')
    ensures !(Delimiter(op) <= " " + v + tail)
  {
    var d, u := Delimiter(op), " " + v + tail;
    if |v| < |op| {
      assert u[1 + |v|] == tail[0] && d[1 + |v|] == op[|v|];
    } else {
      assert d[1 + |op|] == ' ' && u[1 + |op|] == if |v| > |op| then v[|op|] else tail[0];
      assert |v| > |op| ==> v[|op|] in v;
    }
  }

  /** Unless a blank stands on both sides of it, no delimiter starts in the white space before the operator. */
  lemma BeforeOperator(before: string, word: string, after: string, b: string, op: string)
    requires Capitals(op) && WhiteSpace(before) && WhiteSpace(after) && Plain(word) && b != ""
    requires after == "" ==> b[0] == '('
    requires !(Upper(word) == op && Separated(before, after))
    ensures NowhereIn(before, word + (after + b), Delimiter(op))
  {
    var tail := after + b;
    if before != "" {
      var c := before[|before| - 1];
      if c == ' ' {
        WordMatches(op, word, tail);
        assert " " + word + tail == [c] + (word + tail);
      } else {
        FirstMustBeBlank([c] + (word + tail), op);
      }
    }
    NowhereBut(before, word + tail, op);
  }

  lemma OperandPasses(w: string, rest: string, current: string, op: string)
    requires Operand(w)
    ensures Pieces(w + rest, 0, current, Delimiter(op)) == Pieces(rest, 0, current + w, Delimiter(op))
  {
    PassWord(w, rest, current, Delimiter(op));
  }

  /** From the operator's white space on: an operand at the end. */
  lemma LastPiece(space: string, b: string, current: string, op: string)
    requires Capitals(op) && WhiteSpace(space) && Operand(b) && (op == "OR" || op == "AND")
    ensures Pieces(space + b, 0, current, Delimiter(op)) == [current + space + b]
  {
    NotBeforeLast(space, b, op);
    PassSpaces(space, b, current, Delimiter(op));
    OperandPasses(b, "", current + space, op);
    assert b + "" == b;
  }

  /** An operand and the white space after it, in which no delimiter starts. */
  lemma FrontPasses(a: string, space: string, rest: string, op: string)
    requires Operand(a) && WhiteSpace(space) && NowhereIn(space, rest, Delimiter(op))
    ensures Pieces(a + (space + rest), 0, "", Delimiter(op)) == Pieces(rest, 0, a + space, Delimiter(op))
  {
    OperandPasses(a, space + rest, "", op);
    assert "" + a == a;
    PassSpaces(space, rest, a, Delimiter(op));
  }

  lemma Regrouped(a: string, before: string, word: string, after: string, b: string)
    ensures a + Beside(before, word, after) + b == a + (before + (word + (after + b)))
    ensures a + Beside(before, word, after) + b == a + before + word + after + b
  {
  }

  lemma MissedPieces(a: string, before: string, word: string, after: string, b: string, op: string)
    requires Stands(a, before, word, after, b) && (op == "OR" || op == "AND")
    requires !(Upper(word) == op && Separated(before, after))
    ensures Pieces(a + Beside(before, word, after) + b, 0, "", Delimiter(op)) == [a + Beside(before, word, after) + b]
  {
    Regrouped(a, before, word, after, b);
    BeforeOperator(before, word, after, b, op);
    FrontPasses(a, before, word + (after + b), op);
    PassPlain(word, after + b, a + before, Delimiter(op));
    LastPiece(after, b, a + before + word, op);
  }

  /** The operator with a blank on each side is the delimiter, and what follows it is the rest. */
  lemma AtDelimiter(s: string, word: string, after: string, b: string, op: string)
    requires Capitals(op) && Plain(word) && Upper(word) == op && after != "" && after[0] == ' '
    requires s == " " + word + (after + b)
    ensures Delimiter(op) <= Upper(s) && s[0] == ' ' && s[|Delimiter(op)|..] == after[1..] + b
  {
    WordMatches(op, word, after + b);
    DropDelimiter(word, after, b, op);
  }

  lemma DropDelimiter(word: string, after: string, b: string, op: string)
    requires |word| == |op| && after != ""
    ensures |Delimiter(op)| <= |" " + word + (after + b)|
    ensures (" " + word + (after + b))[|Delimiter(op)|..] == after[1..] + b
  {
  }

  lemma PieceEnds(s: string, next: string, current: string, delimiter: string)
    requires delimiter != "" && delimiter <= Upper(s) && s[0] == ' ' && s[|delimiter|..] == next
    ensures Pieces(s, 0, current, delimiter) == [current] + Pieces(next, 0, "", delimiter)
  {
  }

  /** The delimiter at its place: the piece before it ends, and the operand after it follows. */
  lemma PiecesAtDelimiter(s: string, space: string, b: string, current: string, op: string)
    requires (op == "OR" || op == "AND") && WhiteSpace(space) && Operand(b)
    requires Delimiter(op) <= Upper(s) && s[0] == ' ' && s[|Delimiter(op)|..] == space + b
    ensures Pieces(s, 0, current, Delimiter(op)) == [current, space + b]
  {
    PieceEnds(s, space + b, current, Delimiter(op));
    LastPiece(space, b, "", op);
    assert "" + space + b == space + b;
  }

  lemma RegroupedBlank(a: string, space: string, word: string, after: string, b: string)
    ensures a + Beside(space + " ", word, after) + b == a + (space + (" " + word + (after + b)))
  {
  }

  lemma SeenPieces(a: string, before: string, word: string, after: string, b: string, op: string)
    requires Stands(a, before, word, after, b) && (op == "OR" || op == "AND")
    requires Upper(word) == op && Separated(before, after)
    ensures Pieces(a + Beside(before, word, after) + b, 0, "", Delimiter(op))
            == [a + before[..|before| - 1], after[1..] + b]
  {
    var space := before[..|before| - 1];
    assert before == space + " ";
    RegroupedBlank(a, space, word, after, b);
    SpaceBeforeBlank(space, " " + word + (after + b), op);
    FrontPasses(a, space, " " + word + (after + b), op);
    AtDelimiter(" " + word + (after + b), word, after, b, op);
    PiecesAtDelimiter(" " + word + (after + b), after[1..], b, a + space, op);
  }

  lemma SpaceBeforeBlank(space: string, rest: string, op: string)
    requires Capitals(op) && WhiteSpace(space) && rest != "" && rest[0] == ' '
    ensures NowhereIn(space, rest, Delimiter(op))
  {
    if space != "" {
      NotHere([space[|space| - 1]] + rest, op);
    }
    NowhereBut(space, rest, op);
  }

  lemma JoinedUnwraps(a: string, before: string, word: string, after: string, b: string, s: string)
    requires Stands(a, before, word, after, b) && s == a + Beside(before, word, after) + b
    ensures Unwrap(s) == s && Tight(s)
  {
    var rest := Beside(before, word, after) + b;
    assert s == a + rest && s[0] == a[0] && s[|s| - 1] == b[|b| - 1];
    TightTrim(s);
    if Group(a) {
      GroupThenMore(a, rest);
    }
  }

  lemma SplitSeen(a: string, before: string, word: string, after: string, b: string, op: string, s: string)
    requires Stands(a, before, word, after, b) && (op == "OR" || op == "AND") && Unwrap(s) == s
    requires s == a + Beside(before, word, after) + b && Upper(word) == op && Separated(before, after)
    ensures Parts(s, Delimiter(op)) == [a, b]
  {
    var first, last := a + before[..|before| - 1], after[1..] + b;
    SeenPieces(a, before, word, after, b, op);
    TrimSpaces("", a, before[..|before| - 1]);
    TrimSpaces(after[1..], b, "");
    assert "" + a + before[..|before| - 1] == first && after[1..] + b + "" == last;
    KeptTrims([first, last], [a, b]);
  }

  lemma SplitMissed(a: string, before: string, word: string, after: string, b: string, op: string, s: string)
    requires Stands(a, before, word, after, b) && (op == "OR" || op == "AND") && Unwrap(s) == s && Tight(s)
    requires s == a + Beside(before, word, after) + b && !(Upper(word) == op && Separated(before, after))
    ensures Parts(s, Delimiter(op)) == [s]
  {
    MissedPieces(a, before, word, after, b, op);
    TightTrim(s);
    KeptTrims([s], [s]);
  }

  /** Two operands are split at the operator between them exactly when a blank stands on both sides of it. */
  lemma SplitExactly(a: string, before: string, word: string, after: string, b: string, op: string, s: string)
    requires Stands(a, before, word, after, b) && (op == "OR" || op == "AND")
    requires s == a + Beside(before, word, after) + b
    ensures Unwrap(s) == s
    ensures Parts(s, Delimiter(op)) == if Upper(word) == op && Separated(before, after) then [a, b] else [s]
  {
    JoinedUnwraps(a, before, word, after, b, s);
    if Upper(word) == op && Separated(before, after) {
      SplitSeen(a, before, word, after, b, op, s);
    } else {
      SplitMissed(a, before, word, after, b, op, s);
    }
  }

  /** A licence, or an expression in parentheses. */
  predicate Single(e: Expr) {
    WellFormed(e) && (e.License? || e.Paren?)
  }

  lemma SingleIsOperand(e: Expr)
    requires Single(e)
    ensures Operand(Show(e)) && (e.Paren? ==> Group(Show(e)))
  {
    if e.Paren? {
      ShowIsGroup(e.lead, e.inner, e.trail);
    }
  }

  lemma TwoParts(s: string, a: string, b: string, op: string, token: string -> Verdict)
    requires Parts(s, Delimiter(op)) == [a, b]
    ensures ClassifyAll(s, Delimiter(op), [a, b], token) == [Classify(a, token), Classify(b, token)]
  {
    var parts := [a, b];
    ClassifyAllAt(s, Delimiter(op), parts, token, 0);
    ClassifyAllAt(s, Delimiter(op), parts, token, 1);
  }

  /**
   * The law of the evaluator at one operator, with any white space or none beside
   * it: with a blank on both sides the text means what the tree means, and without
   * one, as in (MIT)OR(ISC) or beside a tab, the whole text goes to the verdict on
   * single licences.
   */
  lemma BlanksNeeded(l: Expr, before: string, word: string, after: string, r: Expr, s: string,
                     token: string -> Verdict)
    requires Single(l) && Single(r) && Plain(word) && WhiteSpace(before) && WhiteSpace(after)
    requires (before == "" ==> l.Paren?) && (after == "" ==> r.Paren?)
    requires (Upper(word) == "OR" || Upper(word) == "AND") && s == Show(l) + Beside(before, word, after) + Show(r)
    ensures !Separated(before, after) ==> Classify(s, token) == token(StripWith(s))
    ensures Separated(before, after) ==> Classify(s, token) == Eval(Joined(l, word, r), token)
  {
    SingleIsOperand(l);
    SingleIsOperand(r);
    SplitExactly(Show(l), before, word, after, Show(r), "OR", s);
    SplitExactly(Show(l), before, word, after, Show(r), "AND", s);
    if Separated(before, after) {
      JoinedMeans(s, l, r, Upper(word), token);
      JoinedEvals(l, word, r, token);
    } else {
      ClassifyOne(s, token);
    }
  }

  /** The tree of two operands and an operator. */
  function Joined(l: Expr, word: string, r: Expr): Expr {
    if Upper(word) == "OR" then Or(l, Joint(0, word, 0), r) else And(l, Joint(0, word, 0), r)
  }

  lemma JoinedEvals(l: Expr, word: string, r: Expr, token: string -> Verdict)
    ensures var p, q := Eval(l, token), Eval(r, token);
            Eval(Joined(l, word, r), token) ==
              if Upper(word) == "OR" then (if p.None? || q.None? then None else p) else if p.Some? then p else q
  {
  }

  lemma JoinedMeans(s: string, l: Expr, r: Expr, op: string, token: string -> Verdict)
    requires WellFormed(l) && WellFormed(r)
    requires (op == "OR" || op == "AND") && Parts(s, Delimiter(op)) == [Show(l), Show(r)]
    requires op == "AND" ==> Parts(s, Delimiter("OR")) == [s]
    ensures var p, q := Eval(l, token), Eval(r, token);
            && (op == "OR" ==> Classify(s, token) == if p.None? || q.None? then None else p)
            && (op == "AND" ==> Classify(s, token) == if p.Some? then p else q)
  {
    ShowWrites(l);
    ShowWrites(r);
    ClassifyMeansEval(Show(l), l, token);
    ClassifyMeansEval(Show(r), r, token);
    ClassifyTwo(s, Show(l), Show(r), op, token);
  }

  lemma ClassifyOne(s: string, token: string -> Verdict)
    requires Unwrap(s) == s && Parts(s, Delimiter("OR")) == [s] && Parts(s, Delimiter("AND")) == [s]
    ensures Classify(s, token) == token(StripWith(s))
  {
    assert OR == Delimiter("OR") && AND == Delimiter("AND");
  }

  lemma ClassifyTwo(s: string, a: string, b: string, op: string, token: string -> Verdict)
    requires (op == "OR" || op == "AND") && Parts(s, Delimiter(op)) == [a, b]
    requires op == "AND" ==> Parts(s, Delimiter("OR")) == [s]
    ensures var p, q := Classify(a, token), Classify(b, token);
            && (op == "OR" ==> Classify(s, token) == if p.None? || q.None? then None else p)
            && (op == "AND" ==> Classify(s, token) == if p.Some? then p else q)
  {
    assert OR == Delimiter("OR") && AND == Delimiter("AND");
    TwoParts(s, a, b, op, token);
    TwoVerdicts(Classify(a, token), Classify(b, token));
  }

  lemma TwoVerdicts(p: Verdict, q: Verdict)
    ensures AnyPasses([p, q]) == if p.None? || q.None? then None else p
    ensures FirstFailure([p, q]) == if p.Some? then p else q
  {
    assert [p, q][1..] == [q] && [q][1..] == [];
    assert FirstFailure([q]) == q && [p, q][1] == q;
  }

  // ---------------------------------------------------------------- the loops

  /** `balanced`: one pass with a depth counter. */
  method Balanced(expr: string) returns (ok: bool)
    ensures ok == BalancedFrom(expr, 0)
  {
    var depth := 0;
    var i := 0;
    while i < |expr|
      invariant 0 <= i <= |expr|
      invariant BalancedFrom(expr[i..], depth) == BalancedFrom(expr, 0)
    {
      var ch := expr[i];
      if ch == '(' { depth := depth + 1; }
      if ch == ')' { depth := depth - 1; }
      if depth < 0 { return false; }
      if depth == 0 && i < |expr| - 1 { return false; }
      assert expr[i..][1..] == expr[i + 1..];
      i := i + 1;
    }
    ok := depth == 0;
  }

  /** `unwrapParens`: strip outer parentheses while the whole text is one group. */
  method UnwrapParens(expr: string) returns (current: string)
    ensures current == Unwrap(expr)
  {
    current := Trim(expr);
    while true
      invariant Peel(current) == Unwrap(expr)
      decreases |current|
    {
      if !(|current| > 0 && current[0] == '(' && current[|current| - 1] == ')') {
        return;
      }
      var ok := Balanced(current);
      if !ok {
        return;
      }
      WrappedIsLong(current);
      current := Trim(current[1..|current| - 1]);
    }
  }

  lemma {:induction false} KeptAppend(a: seq<string>, b: seq<string>)
    ensures Kept(a + b) == Kept(a) + Kept(b)
    decreases |a|
  {
    if a == [] {
      assert a + b == b;
    } else {
      assert (a + b)[1..] == a[1..] + b;
      KeptAppend(a[1..], b);
    }
  }

  lemma KeptOne(piece: string)
    ensures Kept([piece]) == if Trim(piece) != "" then [Trim(piece)] else []
  {
    assert [piece][1..] == [];
  }

  /** What the pieces from index `i` on come to, with the current piece begun at `start`. */
  ghost function Ahead(u: string, start: nat, i: nat, depth: int, delimiter: string): seq<string>
    requires start <= i <= |u| && delimiter != ""
  {
    Kept(Pieces(u[i..], depth, u[start..i], delimiter))
  }

  lemma StepOn(u: string, start: nat, i: nat, depth: int, delimiter: string)
    requires start <= i < |u| && delimiter != ""
    requires u[i] == '(' || u[i] == ')' || depth != 0 || !(delimiter <= Upper(u[i..]))
    ensures Ahead(u, start, i, depth, delimiter) == Ahead(u, start, i + 1, Move(u[i], depth), delimiter)
  {
    assert u[i..][1..] == u[i + 1..] && u[i..][0] == u[i];
    assert u[start..i] + [u[i]] == u[start..i + 1];
  }

  lemma StepOver(u: string, start: nat, i: nat, delimiter: string)
    requires start <= i < |u| && delimiter != "" && u[i] != '(' && u[i] != ')' && delimiter <= Upper(u[i..])
    ensures i + |delimiter| <= |u|
    ensures Ahead(u, start, i, 0, delimiter)
               == Kept([u[start..i]]) + Ahead(u, i + |delimiter|, i + |delimiter|, 0, delimiter)
  {
    var next := i + |delimiter|;
    assert u[i..][|delimiter|..] == u[next..] && u[i..][0] == u[i];
    assert u[next..next] == "";
    KeptAppend([u[start..i]], Pieces(u[next..], 0, "", delimiter));
  }

  lemma StepEnd(u: string, start: nat, delimiter: string, depth: int)
    requires start <= |u| && delimiter != ""
    ensures Ahead(u, start, |u|, depth, delimiter) == Kept([u[start..]])
  {
    assert u[|u|..] == "" && u[start..|u|] == u[start..];
  }

  method PushTrimmed(parts: seq<string>, piece: string) returns (r: seq<string>)
    ensures r == parts + Kept([piece])
  {
    KeptOne(piece);
    var trimmed := Trim(piece);
    r := if |trimmed| > 0 then parts + [trimmed] else parts;
  }

  /** What has been pushed and what lies ahead make up the goal. */
  ghost predicate Underway(parts: seq<string>, u: string, start: nat, i: nat, depth: int, delimiter: string,
                           goal: seq<string>) {
    start <= i <= |u| && delimiter != "" && parts + Ahead(u, start, i, depth, delimiter) == goal
  }

  lemma UnderwayOver(parts: seq<string>, u: string, start: nat, i: nat, delimiter: string, goal: seq<string>)
    requires Underway(parts, u, start, i, 0, delimiter, goal)
    requires i < |u| && u[i] != '(' && u[i] != ')' && delimiter <= Upper(u[i..])
    ensures var next := i + |delimiter|;
            Underway(parts + Kept([u[start..i]]), u, next, next, 0, delimiter, goal)
  {
    StepOver(u, start, i, delimiter);
  }

  lemma UnderwayOn(parts: seq<string>, u: string, start: nat, i: nat, depth: int, delimiter: string, goal: seq<string>)
    requires Underway(parts, u, start, i, depth, delimiter, goal)
    requires i < |u| && (u[i] == '(' || u[i] == ')' || depth != 0 || !(delimiter <= Upper(u[i..])))
    ensures Underway(parts, u, start, i + 1, Move(u[i], depth), delimiter, goal)
  {
    StepOn(u, start, i, depth, delimiter);
  }

  lemma UnderwayFrom(u: string, delimiter: string)
    requires delimiter != ""
    ensures Underway([], u, 0, 0, 0, delimiter, Kept(Pieces(u, 0, "", delimiter)))
  {
    assert u[0..0] == "" && u[0..] == u;
  }

  lemma UnderwayTo(parts: seq<string>, u: string, start: nat, depth: int, delimiter: string, goal: seq<string>)
    requires Underway(parts, u, start, |u|, depth, delimiter, goal)
    ensures parts + Kept([u[start..]]) == goal
  {
    StepEnd(u, start, delimiter, depth);
  }

  /** The walk of `splitTopLevel`, with a depth counter and the start of the current piece. */
  method SplitUnwrapped(u: string, delimiter: string) returns (parts: seq<string>)
    requires delimiter != ""
    ensures parts == Kept(Pieces(u, 0, "", delimiter))
  {
    parts := [];
    var depth, start, i := 0, 0, 0;
    ghost var goal := Kept(Pieces(u, 0, "", delimiter));
    UnderwayFrom(u, delimiter);
    while i < |u|
      invariant 0 <= start <= i <= |u|
      invariant Underway(parts, u, start, i, depth, delimiter, goal)
    {
      if depth == 0 && u[i] != '(' && u[i] != ')' && delimiter <= Upper(u[i..]) {
        UnderwayOver(parts, u, start, i, delimiter, goal);
        parts := PushTrimmed(parts, u[start..i]);
        i := i + |delimiter|;
        start := i;
      } else {
        UnderwayOn(parts, u, start, i, depth, delimiter, goal);
        depth := if u[i] == '(' then depth + 1 else if u[i] == ')' then depth - 1 else depth;
        i := i + 1;
      }
    }
    UnderwayTo(parts, u, start, depth, delimiter, goal);
    parts := PushTrimmed(parts, u[start..]);
  }

  /** `splitTopLevel` */
  method SplitTopLevel(expr: string, delimiter: string) returns (parts: seq<string>)
    requires delimiter == OR || delimiter == AND
    ensures parts == Parts(expr, delimiter)
  {
    var u := UnwrapParens(expr);
    parts := SplitUnwrapped(u, delimiter);
  }
}
