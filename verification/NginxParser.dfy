/** The minimal nginx configuration reader of the doctor (gateway/doctor.py): tokens, nested blocks, and
  the choice of a location. */
module NginxParser {
  import opened Text

  datatype Option<+T> = None | Some(value: T)

  datatype Token = Semi | LBrace | RBrace | Word(text: string)

  /** One level: its directives and its blocks, each in order; how they interleave is not kept. */
  datatype Tree = Tree(directives: seq<seq<string>>, blocks: seq<Block>)
  datatype Block = Block(header: seq<string>, body: Tree)

  // ---------------------------------------------------------------- parsing

  function WithDirective(words: seq<string>, t: Tree): Tree {
    if words == [] then t else t.(directives := [words] + t.directives)
  }

  function WithBlock(b: Block, t: Tree): Tree { t.(blocks := [b] + t.blocks) }

  /** _parse_nginx_block from position i, words being the words of the directive under way; also the
      position after the level. It ends on any token list. */
  function Level(tokens: seq<Token>, i: nat, words: seq<string>): (r: (Tree, nat))
    requires i <= |tokens|
    ensures i <= r.1 <= |tokens|
    decreases |tokens| - i
  {
    if i == |tokens| then (Tree([], []), i)
    else
      match tokens[i]
      case Semi => var rest := Level(tokens, i + 1, []); (WithDirective(words, rest.0), rest.1)
      case LBrace =>
        var sub := Level(tokens, i + 1, []);
        var rest := Level(tokens, sub.1, []);
        (WithBlock(Block(words, sub.0), rest.0), rest.1)
      case RBrace => (Tree([], []), i + 1)
      case Word(w) => Level(tokens, i + 1, words + [w])
  }

  function Append(a: Tree, b: Tree): Tree { Tree(a.directives + b.directives, a.blocks + b.blocks) }

  /** The loop with its recursive call for every block. */
  method ParseBlock(tokens: seq<Token>, start: nat) returns (tree: Tree, i: nat)
    requires start <= |tokens|
    ensures (tree, i) == Level(tokens, start, [])
    ensures start <= i <= |tokens|
    decreases |tokens| - start
  {
    tree, i := Tree([], []), start;
    var words: seq<string> := [];
    AppendNothing(Level(tokens, start, []).0);
    while i < |tokens|
      invariant start <= i <= |tokens|
      invariant Level(tokens, start, []) == (Append(tree, Level(tokens, i, words).0), Level(tokens, i, words).1)
      decreases |tokens| - i
    {
      var token := tokens[i];
      ghost var rest := Level(tokens, i, words);
      match token {
        case Semi =>
          AppendDirective(tree, words, Level(tokens, i + 1, []).0);
          if words != [] { tree := tree.(directives := tree.directives + [words]); }
          words := [];
          i := i + 1;
        case LBrace =>
          var sub, next := ParseBlock(tokens, i + 1);
          AppendBlock(tree, Block(words, sub), Level(tokens, next, []).0);
          tree := tree.(blocks := tree.blocks + [Block(words, sub)]);
          words := [];
          i := next;
        case RBrace =>
          assert Append(tree, Tree([], [])) == tree;
          return tree, i + 1;
        case Word(w) =>
          words := words + [w];
          i := i + 1;
      }
    }
    assert Append(tree, Tree([], [])) == tree;
  }

  lemma AppendNothing(t: Tree)
    ensures Append(Tree([], []), t) == t
  {
  }

  lemma AppendDirective(t: Tree, words: seq<string>, rest: Tree)
    ensures Append(t, WithDirective(words, rest)) ==
            Append(if words == [] then t else t.(directives := t.directives + [words]), rest)
  {
    assert t.directives + ([words] + rest.directives) == t.directives + [words] + rest.directives;
  }

  lemma AppendBlock(t: Tree, b: Block, rest: Tree)
    ensures Append(t, WithBlock(b, rest)) == Append(t.(blocks := t.blocks + [b]), rest)
  {
    assert t.blocks + ([b] + rest.blocks) == t.blocks + [b] + rest.blocks;
  }

  // ---------------------------------------------------------------- rendering

  /** A configuration as it is written, directives and blocks interleaved.  At the end of a level words may be left
      over without a semicolon; Cut is a block inside which the text ends. */
  datatype Items =
    | End(leftOver: seq<string>)
    | Directive(words: seq<string>, next: Items)
    | Sub(header: seq<string>, inner: Items, next: Items)
    | Cut(header: seq<string>, inner: Items)

  function Words(s: seq<string>): (r: seq<Token>)
    ensures |r| == |s|
  {
    if s == [] then [] else [Word(s[0])] + Words(s[1..])
  }

  function Render(x: Items): seq<Token> {
    match x
    case End(leftOver) => Words(leftOver)
    case Directive(words, next) => Words(words) + ([Semi] + Render(next))
    case Sub(header, inner, next) => Words(header) + ([LBrace] + (Render(inner) + ([RBrace] + Render(next))))
    case Cut(header, inner) => Words(header) + ([LBrace] + Render(inner))
  }

  /** What is left of it after parsing; an empty directive and left-over words are not kept. */
  function TreeOf(x: Items): Tree {
    match x
    case End(_) => Tree([], [])
    case Directive(words, next) => WithDirective(words, TreeOf(next))
    case Sub(header, inner, next) => WithBlock(Block(header, TreeOf(inner)), TreeOf(next))
    case Cut(header, inner) => WithBlock(Block(header, TreeOf(inner)), Tree([], []))
  }

  /** Every block is closed. */
  predicate Closed(x: Items) {
    match x
    case End(_) => true
    case Directive(_, next) => Closed(next)
    case Sub(_, inner, next) => Closed(inner) && Closed(next)
    case Cut(_, _) => false
  }

  /** Only the last blocks are cut, by the end of the text. */
  predicate Proper(x: Items) {
    match x
    case End(_) => true
    case Directive(_, next) => Proper(next)
    case Sub(_, inner, next) => Closed(inner) && Proper(next)
    case Cut(_, inner) => Proper(inner)
  }

  lemma {:induction false} ClosedIsProper(x: Items)
    requires Closed(x)
    ensures Proper(x)
  {
    match x
    case End(_) =>
    case Directive(_, next) => ClosedIsProper(next);
    case Sub(_, _, next) => ClosedIsProper(next);
  }

  lemma {:induction false} WordsAreRead(tokens: seq<Token>, i: nat, words: seq<string>, s: seq<string>)
    requires i + |s| <= |tokens| && tokens[i..i + |s|] == Words(s)
    ensures Level(tokens, i, words) == Level(tokens, i + |s|, words + s)
    decreases |s|
  {
    if s == [] {
      assert words + s == words;
    } else {
      assert tokens[i] == tokens[i..i + |s|][0] == Word(s[0]);
      assert tokens[i + 1..i + 1 + |s[1..]|] == tokens[i..i + |s|][1..] == Words(s)[1..] == Words(s[1..]);
      WordsAreRead(tokens, i + 1, words + [s[0]], s[1..]);
      assert (words + [s[0]]) + s[1..] == words + s;
    }
  }

  /** tokens has r at position i. */
  predicate Has(tokens: seq<Token>, i: nat, r: seq<Token>) { i + |r| <= |tokens| && tokens[i..i + |r|] == r }

  lemma HasParts(tokens: seq<Token>, i: nat, a: seq<Token>, b: seq<Token>)
    requires Has(tokens, i, a + b)
    ensures Has(tokens, i, a) && Has(tokens, i + |a|, b)
  {
    assert tokens[i..i + |a|] == (a + b)[..|a|];
    assert tokens[i + |a|..i + |a| + |b|] == (a + b)[|a|..];
  }

  /** Parsing from position i, words being under way, gives t and stops at end. */
  predicate Reads(tokens: seq<Token>, i: nat, words: seq<string>, t: Tree, end: nat) {
    i <= |tokens| && Level(tokens, i, words) == (t, end)
  }

  /** The level ends at position j: at a closing brace, which is consumed, or at the end of the tokens. */
  predicate Ends(tokens: seq<Token>, j: nat, end: nat) {
    (j == |tokens| && end == j) || (j < |tokens| && tokens[j] == RBrace && end == j + 1)
  }

  lemma {:induction false} LineRead(tokens: seq<Token>, i: nat, words: seq<string>, t: Tree, end: nat)
    requires Has(tokens, i, Words(words)) && Reads(tokens, i + |words|, words, t, end)
    ensures Reads(tokens, i, [], t, end)
  {
    WordsAreRead(tokens, i, [], words);
    assert [] + words == words;
  }

  lemma DirectiveRead(tokens: seq<Token>, i: nat, words: seq<string>, rest: Tree, end: nat)
    requires i < |tokens| && tokens[i] == Semi && Reads(tokens, i + 1, [], rest, end)
    ensures Reads(tokens, i, words, WithDirective(words, rest), end)
  {
  }

  lemma BlockRead(tokens: seq<Token>, i: nat, header: seq<string>, inner: Tree, c: nat, rest: Tree, end: nat)
    requires i < |tokens| && tokens[i] == LBrace
    requires Reads(tokens, i + 1, [], inner, c) && Reads(tokens, c, [], rest, end)
    ensures Reads(tokens, i, header, WithBlock(Block(header, inner), rest), end)
  {
  }

  lemma HasToken(tokens: seq<Token>, i: nat, t: Token, rest: seq<Token>)
    requires Has(tokens, i, [t] + rest)
    ensures i < |tokens| && tokens[i] == t && Has(tokens, i + 1, rest)
  {
    HasParts(tokens, i, [t], rest);
    assert tokens[i] == tokens[i..i + 1][0];
  }

  /** x stands at position i, up to where its level ends; if it is cut, that is the end of the tokens. */
  predicate Stands(tokens: seq<Token>, i: nat, x: Items, end: nat) {
    && Has(tokens, i, Render(x)) && Ends(tokens, i + |Render(x)|, end)
    && Proper(x) && (Closed(x) || i + |Render(x)| == |tokens|)
  }

  /** Wherever a rendered level stands, followed by a closing brace or by the end, the parser reads back its
      tree and stops there. */
  lemma {:induction false} LevelIsRead(tokens: seq<Token>, i: nat, x: Items, end: nat)
    requires Stands(tokens, i, x, end)
    ensures Reads(tokens, i, [], TreeOf(x), end)
    decreases x, 1
  {
    match x
    case End(leftOver) => LineRead(tokens, i, leftOver, Tree([], []), end);
    case Directive(words, next) => DirectiveLevel(tokens, i, words, next, end);
    case Sub(header, inner, next) => SubLevel(tokens, i, header, inner, next, end);
    case Cut(header, inner) => CutLevel(tokens, i, header, inner, end);
  }

  lemma {:induction false} DirectiveLevel(tokens: seq<Token>, i: nat, words: seq<string>, next: Items, end: nat)
    requires Stands(tokens, i, Directive(words, next), end)
    ensures Reads(tokens, i, [], TreeOf(Directive(words, next)), end)
    decreases Directive(words, next), 0
  {
    hide Has, Reads, Ends;
    var rest := Render(next);
    HasParts(tokens, i, Words(words), [Semi] + rest);
    HasToken(tokens, i + |words|, Semi, rest);
    assert i + |words| + 1 + |rest| == i + |Render(Directive(words, next))|;
    LevelIsRead(tokens, i + |words| + 1, next, end);
    DirectiveRead(tokens, i + |words|, words, TreeOf(next), end);
    LineRead(tokens, i, words, WithDirective(words, TreeOf(next)), end);
  }

  lemma {:induction false} SubLevel(tokens: seq<Token>, i: nat, header: seq<string>, inner: Items, next: Items, end: nat)
    requires Stands(tokens, i, Sub(header, inner, next), end)
    ensures Reads(tokens, i, [], TreeOf(Sub(header, inner, next)), end)
    decreases Sub(header, inner, next), 0
  {
    hide Has, Reads;
    var body, rest := Render(inner), Render(next);
    var k := i + |header|;
    var c := k + 1 + |body|;
    HasParts(tokens, i, Words(header), [LBrace] + (body + ([RBrace] + rest)));
    HasToken(tokens, k, LBrace, body + ([RBrace] + rest));
    HasParts(tokens, k + 1, body, [RBrace] + rest);
    HasToken(tokens, c, RBrace, rest);
    assert c + 1 + |rest| == i + |Render(Sub(header, inner, next))|;
    ClosedIsProper(inner);
    LevelIsRead(tokens, k + 1, inner, c + 1);
    LevelIsRead(tokens, c + 1, next, end);
    BlockRead(tokens, k, header, TreeOf(inner), c + 1, TreeOf(next), end);
    LineRead(tokens, i, header, TreeOf(Sub(header, inner, next)), end);
  }

  lemma {:induction false} CutLevel(tokens: seq<Token>, i: nat, header: seq<string>, inner: Items, end: nat)
    requires Stands(tokens, i, Cut(header, inner), end)
    ensures Reads(tokens, i, [], TreeOf(Cut(header, inner)), end)
    decreases Cut(header, inner), 0
  {
    hide Has;
    var body := Render(inner);
    var k := i + |header|;
    HasParts(tokens, i, Words(header), [LBrace] + body);
    HasToken(tokens, k, LBrace, body);
    assert k + 1 + |body| == |tokens| == end;
    LevelIsRead(tokens, k + 1, inner, end);
    BlockRead(tokens, k, header, TreeOf(inner), end, Tree([], []), end);
    LineRead(tokens, i, header, TreeOf(Cut(header, inner)), end);
  }

  /** Every nested configuration is recovered from its rendered tokens, one that the end of the text cuts included. */
  lemma ParseRender(x: Items)
    requires Proper(x)
    ensures Level(Render(x), 0, []) == (TreeOf(x), |Render(x)|)
  {
    LevelIsRead(Render(x), 0, x, |Render(x)|);
  }

  lemma {:induction false} WordsAppend(s: seq<string>, w: string)
    ensures Words(s + [w]) == Words(s) + [Word(w)]
  {
    if s != [] {
      assert (s + [w])[1..] == s[1..] + [w];
      WordsAppend(s[1..], w);
    } else {
      assert (s + [w])[1..] == [];
    }
  }

  /** What stands at position i, words being under way, and where its level ends. */
  lemma {:induction false} Standing(tokens: seq<Token>, i: nat, words: seq<string>) returns (x: Items, j: nat)
    requires i <= |tokens|
    ensures i <= j <= |tokens| && Words(words) + tokens[i..j] == Render(x) && Ends(tokens, j, Level(tokens, i, words).1)
    ensures Proper(x) && (Closed(x) || j == |tokens|)
    decreases |tokens| - i
  {
    if i == |tokens| || tokens[i] == RBrace {
      x, j := End(words), i;
    } else if tokens[i] == Semi {
      var y;
      y, j := Standing(tokens, i + 1, []);
      x := Directive(words, y);
      assert tokens[i..j] == [Semi] + tokens[i + 1..j];
    } else if tokens[i].Word? {
      x, j := Standing(tokens, i + 1, words + [tokens[i].text]);
      WordsAppend(words, tokens[i].text);
      assert Words(words) + [tokens[i]] + tokens[i + 1..j] == Words(words) + tokens[i..j];
    } else {
      x, j := StandingBlock(tokens, i, words);
    }
  }

  lemma {:induction false} StandingBlock(tokens: seq<Token>, i: nat, words: seq<string>) returns (x: Items, j: nat)
    requires i < |tokens| && tokens[i] == LBrace
    ensures i <= j <= |tokens| && Words(words) + tokens[i..j] == Render(x) && Ends(tokens, j, Level(tokens, i, words).1)
    ensures Proper(x) && (Closed(x) || j == |tokens|)
    decreases |tokens| - i, 0
  {
    var y, k := Standing(tokens, i + 1, []);
    NoWords(tokens[i + 1..k]);
    if k == |tokens| {
      x, j := Cut(words, y), k;
      BlockSlice(tokens, i, k, k);
    } else {
      var z;
      z, j := Standing(tokens, k + 1, []);
      NoWords(tokens[k + 1..j]);
      ClosedIsProper(y);
      x := Sub(words, y, z);
      BlockSlice(tokens, i, k, j);
    }
  }

  lemma NoWords(s: seq<Token>)
    ensures Words([]) + s == s
  {
  }

  lemma BlockSlice(tokens: seq<Token>, i: nat, k: nat, j: nat)
    requires i < k <= j <= |tokens| && tokens[i] == LBrace && (k < j ==> tokens[k] == RBrace)
    ensures tokens[i..k] == [LBrace] + tokens[i + 1..k]
    ensures k < j ==> tokens[i..j] == [LBrace] + (tokens[i + 1..k] + ([RBrace] + tokens[k + 1..j]))
  {
  }

  /** Any token list whatever is such a configuration, up to a closing brace that closes nothing: it is read up to
      there, and what follows is not. */
  lemma AnythingIsRead(tokens: seq<Token>) returns (x: Items, j: nat)
    ensures Proper(x) && (Closed(x) || j == |tokens|) && j <= |tokens| && tokens[..j] == Render(x)
    ensures j < |tokens| ==> tokens[j] == RBrace
    ensures Level(tokens, 0, []) == (TreeOf(x), if j < |tokens| then j + 1 else j)
  {
    x, j := Standing(tokens, 0, []);
    NothingBefore(tokens, j);
    hide TreeOf, Proper, Closed, Level, Render, Words;
    LevelIsRead(tokens, 0, x, Level(tokens, 0, []).1);
  }

  lemma NothingBefore(tokens: seq<Token>, j: nat)
    requires j <= |tokens|
    ensures Words([]) + tokens[0..j] == tokens[..j] == tokens[0..0 + |tokens[..j]|]
  {
  }

  // ---------------------------------------------------------------- text

  predicate Special(c: char) { c == '{' || c == '}' || c == ';' }

  predicate Plain(c: char) { !Space(c) && !Special(c) }

  /** A comment runs up to the end of its line. */
  function StripComments(s: string, inComment: bool): string {
    if s == "" then ""
    else if s[0] == '\n' then ['\n'] + StripComments(s[1..], false)
    else if inComment || s[0] == '#' then StripComments(s[1..], true)
    else [s[0]] + StripComments(s[1..], false)
  }

  /** The length of the longest prefix of plain characters. */
  function Run(s: string): (n: nat)
    ensures n <= |s| && (forall i :: 0 <= i < n ==> Plain(s[i])) && (n < |s| ==> !Plain(s[n]))
  {
    if s == "" || !Plain(s[0]) then 0 else 1 + Run(s[1..])
  }

  function TokenOf(c: char): Token
    requires Special(c)
  {
    if c == '{' then LBrace else if c == '}' then RBrace else Semi
  }

  function Scan(s: string): seq<Token>
    decreases |s|
  {
    if s == "" then []
    else if Special(s[0]) then [TokenOf(s[0])] + Scan(s[1..])
    else if Space(s[0]) then Scan(s[1..])
    else [Word(s[..Run(s)])] + Scan(s[Run(s)..])
  }

  /** _tokenize_nginx */
  function Tokenize(s: string): seq<Token> { Scan(StripComments(s, false)) }

  /** A token that can be written: a word is not empty, and has neither spaces, braces, semicolons nor #. */
  predicate Writable(t: Token) { t.Word? ==> t.text != "" && forall i :: 0 <= i < |t.text| ==> Plain(t.text[i]) && t.text[i] != '#' }

  function TextOf(t: Token): string {
    match t
    case Semi => ";"
    case LBrace => "{"
    case RBrace => "}"
    case Word(w) => w
  }

  function Flat(pieces: seq<string>): string { if pieces == [] then "" else pieces[0] + Flat(pieces[1..]) }

  /** Tokens with blanks before, between and after them. */
  function Write(tokens: seq<Token>, gaps: seq<seq<string>>): string
    requires |gaps| == |tokens| + 1
  {
    Flat(gaps[0]) + if tokens == [] then "" else TextOf(tokens[0]) + Write(tokens[1..], gaps[1..])
  }

  /** White space, or a comment with its line break. */
  predicate Gap(g: string) {
    (g != "" && forall i :: 0 <= i < |g| ==> Space(g[i]))
    || (|g| >= 2 && g[0] == '#' && g[|g| - 1] == '\n' && forall i :: 0 < i < |g| - 1 ==> g[i] != '\n')
  }

  predicate Gaps(pieces: seq<string>) { forall i :: 0 <= i < |pieces| ==> Gap(pieces[i]) }

  /** Only two words need a blank between them. */
  predicate WellSpaced(tokens: seq<Token>, gaps: seq<seq<string>>) {
    && |gaps| == |tokens| + 1 && (forall i :: 0 <= i < |gaps| ==> Gaps(gaps[i]))
    && forall i :: 0 < i < |tokens| && tokens[i - 1].Word? && tokens[i].Word? ==> gaps[i] != []
  }

  /** The text may end in a comment without a line break. */
  predicate Tail(s: string) { s == "" || (s[0] == '#' && forall i :: 0 <= i < |s| ==> s[i] != '\n') }

  lemma {:induction false} StripPlain(w: string, rest: string)
    requires forall i :: 0 <= i < |w| ==> w[i] != '#'
    ensures StripComments(w + rest, false) == w + StripComments(rest, false)
  {
    if w == "" {
      assert w + rest == rest;
    } else {
      assert (w + rest)[1..] == w[1..] + rest;
      StripPlain(w[1..], rest);
      assert [w[0]] + (w[1..] + StripComments(rest, false)) == w + StripComments(rest, false);
    }
  }

  lemma {:induction false} StripInside(g: string, rest: string)
    requires |g| >= 1 && g[|g| - 1] == '\n' && forall i :: 0 <= i < |g| - 1 ==> g[i] != '\n'
    ensures StripComments(g + rest, true) == "\n" + StripComments(rest, false)
  {
    assert (g + rest)[1..] == g[1..] + rest;
    if |g| == 1 {
      assert g[1..] + rest == rest;
    } else {
      StripInside(g[1..], rest);
    }
  }

  /** Without its comments, a gap is white space. */
  lemma StripGap(g: string, rest: string) returns (h: string)
    requires Gap(g)
    ensures StripComments(g + rest, false) == h + StripComments(rest, false) && h != "" && forall i :: 0 <= i < |h| ==> Space(h[i])
  {
    if g[0] == '#' {
      h := "\n";
      assert (g + rest)[1..] == g[1..] + rest;
      StripInside(g[1..], rest);
    } else {
      h := g;
      StripPlain(g, rest);
    }
  }

  lemma {:induction false} StripGaps(pieces: seq<string>, rest: string) returns (h: string)
    requires Gaps(pieces)
    ensures StripComments(Flat(pieces) + rest, false) == h + StripComments(rest, false)
    ensures (h == "" <==> pieces == []) && forall i :: 0 <= i < |h| ==> Space(h[i])
  {
    if pieces == [] {
      h := "";
      assert Flat(pieces) + rest == rest;
    } else {
      var more := StripGaps(pieces[1..], rest);
      assert Flat(pieces) + rest == pieces[0] + (Flat(pieces[1..]) + rest);
      h := StripGap(pieces[0], Flat(pieces[1..]) + rest);
      assert h + (more + StripComments(rest, false)) == (h + more) + StripComments(rest, false);
      h := h + more;
    }
  }

  lemma {:induction false} StripTail(s: string)
    requires forall i :: 0 <= i < |s| ==> s[i] != '\n'
    ensures StripComments(s, true) == ""
  {
    if s != "" { StripTail(s[1..]); }
  }

  lemma {:induction false} ScanGap(h: string, rest: string)
    requires forall i :: 0 <= i < |h| ==> Space(h[i])
    ensures Scan(h + rest) == Scan(rest)
  {
    if h == "" {
      assert h + rest == rest;
    } else {
      assert (h + rest)[1..] == h[1..] + rest;
      ScanGap(h[1..], rest);
    }
  }

  lemma {:induction false} RunAppend(w: string, rest: string)
    requires (forall i :: 0 <= i < |w| ==> Plain(w[i])) && (rest == "" || !Plain(rest[0]))
    ensures Run(w + rest) == |w|
  {
    if w == "" {
      assert w + rest == rest;
    } else {
      assert (w + rest)[1..] == w[1..] + rest;
      RunAppend(w[1..], rest);
    }
  }

  lemma ScanToken(t: Token, rest: string)
    requires Writable(t) && (t.Word? ==> rest == "" || !Plain(rest[0]))
    ensures Scan(TextOf(t) + rest) == [t] + Scan(rest)
  {
    var s := TextOf(t) + rest;
    if t.Word? {
      RunAppend(t.text, rest);
      assert s[..|t.text|] == t.text && s[|t.text|..] == rest;
      assert Plain(s[0]);
    } else {
      assert s[1..] == rest;
    }
  }

  predicate AllWritable(tokens: seq<Token>) { forall i :: 0 <= i < |tokens| ==> Writable(tokens[i]) }

  /** What is left of a written text without its comments: blanks h, the first token, and what is left of the rest. */
  lemma StripFirst(tokens: seq<Token>, gaps: seq<seq<string>>, tail: string) returns (h: string)
    requires AllWritable(tokens) && WellSpaced(tokens, gaps) && Tail(tail)
    ensures (h == "" <==> gaps[0] == []) && forall i :: 0 <= i < |h| ==> Space(h[i])
    ensures StripComments(Write(tokens, gaps) + tail, false) ==
            h + if tokens == [] then "" else TextOf(tokens[0]) + StripComments(Write(tokens[1..], gaps[1..]) + tail, false)
  {
    if tokens == [] {
      h := StripGaps(gaps[0], tail);
      assert Write(tokens, gaps) + tail == Flat(gaps[0]) + tail;
      if tail != "" { StripTail(tail[1..]); }
    } else {
      var rest := Write(tokens[1..], gaps[1..]) + tail;
      assert Write(tokens, gaps) + tail == Flat(gaps[0]) + (TextOf(tokens[0]) + rest);
      h := StripGaps(gaps[0], TextOf(tokens[0]) + rest);
      assert Writable(tokens[0]);
      StripPlain(TextOf(tokens[0]), rest);
    }
  }

  /** Whatever the white space and the comments around them, written tokens are read back; braces and semicolons need
      no space, and the last comment no line break. */
  lemma {:induction false} TokenizeWrite(tokens: seq<Token>, gaps: seq<seq<string>>, tail: string)
    requires AllWritable(tokens) && WellSpaced(tokens, gaps) && Tail(tail)
    ensures Tokenize(Write(tokens, gaps) + tail) == tokens
  {
    var h := StripFirst(tokens, gaps, tail);
    if tokens == [] {
      assert h + "" == h;
      ScanGap(h, "");
    } else {
      var clean := StripComments(Write(tokens[1..], gaps[1..]) + tail, false);
      Rest(tokens, gaps);
      TokenizeWrite(tokens[1..], gaps[1..], tail);
      NextIsNotPlain(tokens, gaps, tail);
      ScanToken(tokens[0], clean);
      ScanGap(h, TextOf(tokens[0]) + clean);
      assert tokens == [tokens[0]] + tokens[1..];
    }
  }

  lemma Rest(tokens: seq<Token>, gaps: seq<seq<string>>)
    requires AllWritable(tokens) && WellSpaced(tokens, gaps) && tokens != []
    ensures AllWritable(tokens[1..]) && WellSpaced(tokens[1..], gaps[1..]) && Writable(tokens[0])
  {
  }

  /** After a word comes a blank, a brace, a semicolon or the end. */
  lemma NextIsNotPlain(tokens: seq<Token>, gaps: seq<seq<string>>, tail: string)
    requires AllWritable(tokens) && WellSpaced(tokens, gaps) && Tail(tail) && tokens != []
    ensures var clean := StripComments(Write(tokens[1..], gaps[1..]) + tail, false);
            tokens[0].Word? ==> clean == "" || !Plain(clean[0])
  {
    Rest(tokens, gaps);
    var h := StripFirst(tokens[1..], gaps[1..], tail);
    if tokens[0].Word? && |tokens| > 1 && gaps[1] == [] { assert !tokens[1].Word?; }
  }

  /** A written configuration is read back, from its text. */
  lemma ConfigurationRoundTrip(x: Items, gaps: seq<seq<string>>, tail: string)
    requires Proper(x) && AllWritable(Render(x)) && WellSpaced(Render(x), gaps) && Tail(tail)
    ensures Level(Tokenize(Write(Render(x), gaps) + tail), 0, []).0 == TreeOf(x)
  {
    TokenizeWrite(Render(x), gaps, tail);
    ParseRender(x);
  }

  // ---------------------------------------------------------------- all blocks

  /** _walk_nginx: a block before the blocks inside it. */
  function Walk(blocks: seq<Block>): seq<Block>
    decreases blocks
  {
    if blocks == [] then []
    else [blocks[0]] + Walk(blocks[0].body.blocks) + Walk(blocks[1..])
  }

  /** b is one of the blocks, or is nested in one of them, at any depth. */
  ghost predicate Nested(b: Block, blocks: seq<Block>)
    decreases blocks
  {
    exists i :: 0 <= i < |blocks| && (b == blocks[i] || Nested(b, blocks[i].body.blocks))
  }

  /** Exactly the nested blocks are found. */
  lemma {:induction false} WalkFindsNested(b: Block, blocks: seq<Block>)
    ensures b in Walk(blocks) <==> Nested(b, blocks)
    decreases blocks
  {
    if blocks != [] {
      var rest := blocks[1..];
      WalkFindsNested(b, blocks[0].body.blocks);
      WalkFindsNested(b, rest);
      if Nested(b, rest) {
        var i :| 0 <= i < |rest| && (b == rest[i] || Nested(b, rest[i].body.blocks));
        assert blocks[i + 1] == rest[i];
      }
      if Nested(b, blocks) {
        var i :| 0 <= i < |blocks| && (b == blocks[i] || Nested(b, blocks[i].body.blocks));
        if i > 0 { assert rest[i - 1] == blocks[i]; }
      }
    }
  }

  // ---------------------------------------------------------------- choosing a location

  datatype Location = Location(modifier: string, pattern: string)

  predicate Exact(l: Location, path: string) { l.modifier == "=" && l.pattern == path }

  predicate Prefix(l: Location, path: string) { (l.modifier == "" || l.modifier == "^~") && l.pattern <= path }

  predicate Regex(l: Location) { l.modifier == "~" || l.modifier == "~*" }

  /** first is the position of the first location with p. */
  ghost predicate First(locations: seq<Location>, p: Location -> bool, first: nat) {
    first < |locations| && p(locations[first]) && forall k :: 0 <= k < first ==> !p(locations[k])
  }

  /** The longest matching prefix, the first of those. */
  ghost predicate BestPrefix(locations: seq<Location>, path: string, best: nat) {
    && best < |locations| && Prefix(locations[best], path)
    && (forall k :: 0 <= k < |locations| && Prefix(locations[k], path) ==> |locations[k].pattern| <= |locations[best].pattern|)
    && (forall k :: 0 <= k < best && Prefix(locations[k], path) ==> |locations[k].pattern| < |locations[best].pattern|)
  }

  /** The choice: an exact location; else the best prefix if it is ^~; else the first regex that matches;
      else the best prefix. */
  ghost predicate Chosen(locations: seq<Location>, path: string, found: Location -> bool, r: Option<nat>) {
    if exists i :: 0 <= i < |locations| && Exact(locations[i], path) then
      r.Some? && First(locations, l => Exact(l, path), r.value)
    else if r.Some? && r.value < |locations| && Prefix(locations[r.value], path) then
      && BestPrefix(locations, path, r.value)
      && (locations[r.value].modifier == "^~" || forall i :: 0 <= i < |locations| ==> !(Regex(locations[i]) && found(locations[i])))
    else if r.Some? then
      && First(locations, l => Regex(l) && found(l), r.value)
      && forall i: nat :: BestPrefix(locations, path, i) ==> locations[i].modifier != "^~"
    else
      forall i :: 0 <= i < |locations| ==> !Prefix(locations[i], path) && !(Regex(locations[i]) && found(locations[i]))
  }

  /** match_location; found tells whether the regex of a location matches the path (an invalid one does not). */
  method MatchLocation(locations: seq<Location>, path: string, found: Location -> bool) returns (r: Option<nat>)
    ensures r.Some? ==> r.value < |locations|
    ensures Chosen(locations, path, found, r)
  {
    for i := 0 to |locations|
      invariant forall k :: 0 <= k < i ==> !Exact(locations[k], path)
    {
      if locations[i].modifier == "=" && locations[i].pattern == path { return Some(i); }
    }
    var best: Option<nat> := None;
    for i := 0 to |locations|
      invariant best.None? ==> forall k :: 0 <= k < i ==> !Prefix(locations[k], path)
      invariant best.Some? ==> best.value < i && Prefix(locations[best.value], path)
      invariant best.Some? ==> forall k :: 0 <= k < i && Prefix(locations[k], path) ==>
                  |locations[k].pattern| <= |locations[best.value].pattern|
      invariant best.Some? ==> forall k :: 0 <= k < best.value && Prefix(locations[k], path) ==>
                  |locations[k].pattern| < |locations[best.value].pattern|
    {
      if (locations[i].modifier == "" || locations[i].modifier == "^~") && locations[i].pattern <= path {
        if best.None? || |locations[i].pattern| > |locations[best.value].pattern| { best := Some(i); }
      }
    }
    if best.Some? && locations[best.value].modifier == "^~" { return best; }
    for i := 0 to |locations|
      invariant forall k :: 0 <= k < i ==> !(Regex(locations[k]) && found(locations[k]))
    {
      if (locations[i].modifier == "~" || locations[i].modifier == "~*") && found(locations[i]) {
        BestIsUnique(locations, path);
        if best.Some? { assert BestPrefix(locations, path, best.value); }
        return Some(i);
      }
    }
    return best;
  }

  lemma BestIsUnique(locations: seq<Location>, path: string)
    ensures forall i: nat, j: nat :: BestPrefix(locations, path, i) && BestPrefix(locations, path, j) ==> i == j
  {
  }
}
