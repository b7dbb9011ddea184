/** What the Parser is proved to do: the precedence levels of the grammar,
    the well-nested trees it produces, the symbols a tree is written with,
    and the node ids it hands out. */
module ParserSpec {
  import opened Wrappers
  import opened Tokens
  import opened Ast

  /** The result of a parsing method: a value, or the `ParseError` the
      source throws (always after the error has been reported). */
  datatype Parsed<T> = Ok(value: T) | ParseError

  // ---------------------------------------------------------------------
  // Precedence
  // ---------------------------------------------------------------------

  /** The precedence of a binary operator, from loosest (equality, 1) to
      tightest (factor, 4); 0 for every other token kind. */
  function Prec(kind: TokenType): nat
  {
    if kind == BangEqual || kind == EqualEqual then 1
    else if kind == Greater || kind == GreaterEqual || kind == Less || kind == LessEqual then 2
    else if kind == Minus || kind == Plus then 3
    else if kind == Slash || kind == Star then 4
    else 0
  }

  /** How tightly an expression binds: 0 for an assignment, the precedence
      of its operator for a binary expression, 5 for a unary one, 6 for a
      primary (literal, variable or parenthesised expression). */
  function Level(e: Expr): nat
  {
    match e
    case Assign(_, _, _) => 0
    case Binary(_, operator, _) => Prec(operator.kind)
    case Unary(_, _) => 5
    case _ => 6
  }

  /** The trees the grammar produces: only the expression kinds this parser
      builds, every binary operator with a left operand at least as tight as
      itself and a right operand strictly tighter (left associativity), and
      unary operators applied to unary or primary operands. */
  ghost predicate WellNested(e: Expr)
  {
    match e
    case Assign(_, name, value) => name.kind == Identifier && WellNested(value)
    case Binary(left, operator, right) =>
      && Prec(operator.kind) > 0
      && Level(left) >= Prec(operator.kind)
      && Level(right) > Prec(operator.kind)
      && WellNested(left) && WellNested(right)
    case Unary(operator, right) =>
      (operator.kind == Bang || operator.kind == Minus) && Level(right) >= 5 && WellNested(right)
    case Grouping(inner) => WellNested(inner)
    case Literal(_) => true
    case Variable(_, name) => name.kind == Identifier
    case _ => false
  }

  /** The statements the grammar produces, with well-nested expressions. */
  ghost predicate StmtWellNested(s: Stmt)
  {
    match s
    case Var(name, initializer) =>
      name.kind == Identifier && (initializer.Some? ==> WellNested(initializer.value))
    case Print(e) => WellNested(e)
    case Expression(e) => WellNested(e)
    case Block(statements) =>
      forall i :: 0 <= i < |statements| ==>
        statements[i].Some? ==> StmtWellNested(statements[i].value)
    case _ => false
  }

  // ---------------------------------------------------------------------
  // Spelling: the tokens a tree stands for
  // ---------------------------------------------------------------------

  /** What a token contributes to the text of a tree: identifiers by
      lexeme, literals by value, everything else by kind. */
  datatype Sym = Punct(kind: TokenType) | Name(lexeme: string) | Atom(value: LiteralValue)

  function TokenSym(t: Token): Sym
  {
    if t.kind == Identifier then Name(t.lexeme)
    else if t.kind == False then Atom(BoolValue(false))
    else if t.kind == True then Atom(BoolValue(true))
    else if t.kind == Nil then Atom(NilValue)
    else if t.kind == Number || t.kind == String then Atom(FromTokenLiteral(t.literal))
    else Punct(t.kind)
  }

  /** The symbols an expression the parser builds was written with. */
  function Flatten(e: Expr): seq<Sym>
  {
    match e
    case Assign(_, name, value) => [TokenSym(name), Punct(Equal)] + Flatten(value)
    case Binary(left, operator, right) => Flatten(left) + [TokenSym(operator)] + Flatten(right)
    case Unary(operator, right) => [TokenSym(operator)] + Flatten(right)
    case Grouping(inner) => [Punct(LeftParen)] + Flatten(inner) + [Punct(RightParen)]
    case Literal(v) => [Atom(v)]
    case Variable(_, name) => [TokenSym(name)]
    case _ => []
  }

  /** The symbols a statement the parser builds was written with; a failed
      declaration (`None`) stands for nothing. */
  function FlattenStmt(s: Stmt): seq<Sym>
    decreases s, 1
  {
    match s
    case Var(name, initializer) =>
      [Punct(TokenType.Var), TokenSym(name)]
      + (if initializer.Some? then [Punct(Equal)] + Flatten(initializer.value) else [])
      + [Punct(Semicolon)]
    case Print(e) => [Punct(TokenType.Print)] + Flatten(e) + [Punct(Semicolon)]
    case Expression(e) => Flatten(e) + [Punct(Semicolon)]
    case Block(statements) => [Punct(LeftBrace)] + FlattenPrefix(s, |statements|) + [Punct(RightBrace)]
    case _ => []
  }

  /** The symbols of the first `n` statements of the block `s`. */
  function FlattenPrefix(s: Stmt, n: nat): seq<Sym>
    requires s.Block? && n <= |s.statements|
    decreases s, 0, n
  {
    if n == 0 then []
    else
      var last := s.statements[n - 1];
      FlattenPrefix(s, n - 1) + (if last.Some? then FlattenStmt(last.value) else [])
  }

  function FlattenBlock(statements: seq<Option<Stmt>>): seq<Sym>
  {
    FlattenPrefix(Stmt.Block(statements), |statements|)
  }

  /** `tokens[lo..hi]` stands for exactly the symbols `syms`. */
  ghost predicate Spells(tokens: seq<Token>, lo: nat, hi: nat, syms: seq<Sym>)
  {
    lo <= hi <= |tokens| && hi - lo == |syms|
    && forall k :: lo <= k < hi ==> TokenSym(tokens[k]) == syms[k - lo]
  }

  lemma SpellsConcat(tokens: seq<Token>, a: nat, b: nat, c: nat, x: seq<Sym>, y: seq<Sym>)
    requires Spells(tokens, a, b, x) && Spells(tokens, b, c, y)
    ensures Spells(tokens, a, c, x + y)
  {
    forall k | a <= k < c
      ensures TokenSym(tokens[k]) == (x + y)[k - a]
    {
      if k >= b {
        assert (x + y)[k - a] == y[k - b];
      }
    }
  }

  lemma SpellsOne(tokens: seq<Token>, k: nat)
    requires k < |tokens|
    ensures Spells(tokens, k, k + 1, [TokenSym(tokens[k])])
  {
  }

  // ---------------------------------------------------------------------
  // Node ids
  // ---------------------------------------------------------------------

  /** `ids` is strictly increasing and every id lies in `[lo, hi)`. */
  ghost predicate IdsWithin(ids: seq<nat>, lo: nat, hi: nat)
  {
    && (forall i :: 0 <= i < |ids| ==> lo <= ids[i] < hi)
    && (forall i :: 0 < i < |ids| ==> ids[i - 1] < ids[i])
  }

  lemma IdsConcat(x: seq<nat>, y: seq<nat>, lo: nat, mid: nat, hi: nat)
    requires lo <= mid <= hi && IdsWithin(x, lo, mid) && IdsWithin(y, mid, hi)
    ensures IdsWithin(x + y, lo, hi)
  {
    forall i | 0 <= i < |x + y|
      ensures lo <= (x + y)[i] < hi
    {
      if i < |x| {
        assert (x + y)[i] == x[i];
      } else {
        assert (x + y)[i] == y[i - |x|];
      }
    }
    forall i | 0 < i < |x + y|
      ensures (x + y)[i - 1] < (x + y)[i]
    {
      if i == |x| {
        assert (x + y)[i - 1] == x[|x| - 1] && (x + y)[i] == y[0];
      } else if i > |x| {
        assert (x + y)[i - 1] == y[i - 1 - |x|];
      }
    }
  }

  /** Ids within a range are pairwise distinct: no two nodes share one. */
  lemma {:induction false} IdsDistinct(ids: seq<nat>, lo: nat, hi: nat, i: nat, j: nat)
    requires IdsWithin(ids, lo, hi) && i < j < |ids|
    ensures ids[i] < ids[j]
    decreases j - i
  {
    if i + 1 < j {
      IdsDistinct(ids, lo, hi, i + 1, j);
    }
  }

  /** The node ids of a statement, left to right. */
  function StmtIds(s: Stmt): seq<nat>
    decreases s, 1
  {
    match s
    case Var(_, initializer) => if initializer.Some? then ExprIds(initializer.value) else []
    case Print(e) => ExprIds(e)
    case Expression(e) => ExprIds(e)
    case Block(statements) => IdsPrefix(s, |statements|)
    case _ => []
  }

  /** The node ids of the first `n` statements of the block `s`. */
  function IdsPrefix(s: Stmt, n: nat): seq<nat>
    requires s.Block? && n <= |s.statements|
    decreases s, 0, n
  {
    if n == 0 then []
    else
      var last := s.statements[n - 1];
      IdsPrefix(s, n - 1) + (if last.Some? then StmtIds(last.value) else [])
  }

  function BlockIds(statements: seq<Option<Stmt>>): seq<nat>
  {
    IdsPrefix(Stmt.Block(statements), |statements|)
  }

  /** The contract of every expression method, over the cursor, the id
      counter and the error list before (`start`, `firstId`, `errors0`) and
      after (`stop`, `lastId`, `errors1`).  Always: the cursor and the
      counter only move forward and errors are only appended.  On failure:
      an error has been reported.  On success: `ExprBuilt`. */
  ghost predicate ExprParsed(tokens: seq<Token>, r: Parsed<Expr>, level: nat,
                             start: nat, stop: nat, firstId: nat, lastId: nat,
                             errors0: seq<Diagnostic>, errors1: seq<Diagnostic>)
  {
    && start <= stop && firstId <= lastId && errors0 <= errors1
    && (r.ParseError? ==> |errors1| > |errors0|)
    && (r.Ok? ==> ExprBuilt(tokens, r.value, level, start, stop, firstId, lastId, |errors1| == |errors0|))
  }

  /** `e` is a well-nested expression no looser than `level`, made of at
      least one token, whose ids are increasing and drawn from
      `[firstId, lastId)`; when no error was reported (`clean`), the tokens
      `tokens[start..stop]` spell it. */
  ghost predicate ExprBuilt(tokens: seq<Token>, e: Expr, level: nat, start: nat, stop: nat,
                            firstId: nat, lastId: nat, clean: bool)
  {
    && start < stop
    && WellNested(e) && Level(e) >= level
    && IdsWithin(ExprIds(e), firstId, lastId)
    && (clean ==> Spells(tokens, start, stop, Flatten(e)))
  }

  /** One step of a binary-level loop: `left` was parsed from `start` up
      to the operator at `mid - 1`, `right` from `mid` to `stop`; the
      combined tree keeps every property of the loop. */
  lemma BinaryParsed(tokens: seq<Token>, left: Expr, operator: Token, right: Expr, level: nat,
                     start: nat, opAt: nat, mid: nat, stop: nat, firstId: nat, midId: nat, lastId: nat,
                     errors0: seq<Diagnostic>, errorsMid: seq<Diagnostic>, errors1: seq<Diagnostic>)
    requires 0 < mid <= stop <= |tokens| && mid == opAt + 1 && operator == tokens[mid - 1]
    requires Prec(operator.kind) == level && level > 0
    requires ExprParsed(tokens, Ok(left), level, start, opAt, firstId, midId, errors0, errorsMid)
    requires ExprParsed(tokens, Ok(right), level + 1, mid, stop, midId, lastId, errorsMid, errors1)
    ensures ExprParsed(tokens, Ok(Expr.Binary(left, operator, right)), level, start, stop, firstId, lastId, errors0, errors1)
  {
    IdsConcat(ExprIds(left), ExprIds(right), firstId, midId, lastId);
    if |errors1| == |errors0| {
      SpellsOne(tokens, opAt);
      SpellsConcat(tokens, start, opAt, mid, Flatten(left), [TokenSym(operator)]);
      SpellsConcat(tokens, start, mid, stop, Flatten(left) + [TokenSym(operator)], Flatten(right));
    }
  }

  /** An assignment: the variable `target` was parsed from `start` up to
      the `=` at `mid - 1`, its value from `mid` to `stop`, and the new node
      takes the id `id` after all of the value's. */
  lemma AssignParsed(tokens: seq<Token>, target: Expr, id: nat, value: Expr,
                     start: nat, eqAt: nat, mid: nat, stop: nat, firstId: nat, midId: nat,
                     errors0: seq<Diagnostic>, errorsMid: seq<Diagnostic>, errors1: seq<Diagnostic>)
    requires eqAt < mid <= stop <= |tokens| && mid == eqAt + 1 && tokens[eqAt].kind == Equal && target.Variable?
    requires ExprParsed(tokens, Ok(target), 1, start, eqAt, firstId, midId, errors0, errorsMid)
    requires ExprParsed(tokens, Ok(value), 0, mid, stop, midId, id, errorsMid, errors1)
    ensures ExprParsed(tokens, Ok(Expr.Assign(id, target.name, value)), 0, start, stop, firstId, id + 1, errors0, errors1)
  {
    IdsConcat(ExprIds(value), [id], midId, id, id + 1);
    IdsWiden(ExprIds(value) + [id], midId, id + 1, firstId, id + 1);
    if |errors1| == |errors0| {
      SpellsOne(tokens, eqAt);
      SpellsConcat(tokens, start, eqAt, mid, Flatten(target), [Punct(Equal)]);
      SpellsConcat(tokens, start, mid, stop, Flatten(target) + [Punct(Equal)], Flatten(value));
      assert Flatten(target) + [Punct(Equal)] == [TokenSym(target.name), Punct(Equal)];
    }
  }

  /** An expression stays parsed when more tokens, ids and errors follow,
      provided one more error has been reported. */
  lemma ReportedParsed(tokens: seq<Token>, e: Expr, level: nat, start: nat, stop: nat, stop': nat,
                       firstId: nat, lastId: nat, lastId': nat,
                       errors0: seq<Diagnostic>, errors1: seq<Diagnostic>, errors2: seq<Diagnostic>)
    requires ExprParsed(tokens, Ok(e), level, start, stop, firstId, lastId, errors0, errors1)
    requires stop <= stop' <= |tokens| && lastId <= lastId' && errors1 <= errors2 && |errors2| > |errors0|
    ensures ExprParsed(tokens, Ok(e), level, start, stop', firstId, lastId', errors0, errors2)
  {
    IdsWiden(ExprIds(e), firstId, lastId, firstId, lastId');
  }

  lemma IdsWiden(ids: seq<nat>, lo: nat, hi: nat, lo': nat, hi': nat)
    requires IdsWithin(ids, lo, hi) && lo' <= lo && hi <= hi'
    ensures IdsWithin(ids, lo', hi')
  {
  }

  /** A primary expression written as the single token at `start`. */
  lemma AtomParsed(tokens: seq<Token>, e: Expr, start: nat, stop: nat, firstId: nat, lastId: nat, errors: seq<Diagnostic>)
    requires start < |tokens| && stop == start + 1 && firstId <= lastId
    requires WellNested(e) && Level(e) == 6 && Flatten(e) == [TokenSym(tokens[start])]
    requires IdsWithin(ExprIds(e), firstId, lastId)
    ensures ExprParsed(tokens, Ok(e), 6, start, stop, firstId, lastId, errors, errors)
  {
  }

  /** A unary operator at `start` applied to the operand parsed from
      `mid`. */
  lemma UnaryParsed(tokens: seq<Token>, operator: Token, right: Expr, start: nat, mid: nat, stop: nat,
                    firstId: nat, lastId: nat, errors0: seq<Diagnostic>, errors1: seq<Diagnostic>)
    requires start < mid <= stop <= |tokens| && mid == start + 1 && operator == tokens[start]
    requires operator.kind == Bang || operator.kind == Minus
    requires ExprParsed(tokens, Ok(right), 5, mid, stop, firstId, lastId, errors0, errors1)
    ensures ExprParsed(tokens, Ok(Expr.Unary(operator, right)), 5, start, stop, firstId, lastId, errors0, errors1)
  {
    if |errors1| == |errors0| {
      SpellsOne(tokens, start);
      SpellsConcat(tokens, start, mid, stop, [TokenSym(operator)], Flatten(right));
    }
  }

  /** A parenthesised expression: `(` at `start`, the inner expression
      parsed from `mid`, `)` at `close`. */
  lemma GroupingParsed(tokens: seq<Token>, inner: Expr, start: nat, mid: nat, close: nat, stop: nat,
                       firstId: nat, lastId: nat, errors0: seq<Diagnostic>, errors1: seq<Diagnostic>)
    requires start < mid <= close < stop <= |tokens| && mid == start + 1 && stop == close + 1
    requires tokens[start].kind == LeftParen && tokens[close].kind == RightParen
    requires ExprParsed(tokens, Ok(inner), 0, mid, close, firstId, lastId, errors0, errors1)
    ensures ExprParsed(tokens, Ok(Expr.Grouping(inner)), 6, start, stop, firstId, lastId, errors0, errors1)
  {
    if |errors1| == |errors0| {
      SpellsOne(tokens, start);
      SpellsOne(tokens, close);
      SpellsConcat(tokens, start, mid, close, [Punct(LeftParen)], Flatten(inner));
      SpellsConcat(tokens, start, close, stop, [Punct(LeftParen)] + Flatten(inner), [Punct(RightParen)]);
    }
  }

  // ---------------------------------------------------------------------
  // Statements
  // ---------------------------------------------------------------------

  /** The contract of the statement methods, like `ExprParsed`. */
  ghost predicate StmtParsed(tokens: seq<Token>, r: Parsed<Stmt>,
                             start: nat, stop: nat, firstId: nat, lastId: nat,
                             errors0: seq<Diagnostic>, errors1: seq<Diagnostic>)
  {
    && start <= stop && firstId <= lastId && errors0 <= errors1
    && (r.ParseError? ==> |errors1| > |errors0|)
    && (r.Ok? ==> StmtBuilt(tokens, r.value, start, stop, firstId, lastId, |errors1| == |errors0|))
  }

  /** The contract of a declaration, which never fails: a `None` result
      means an error was reported and recovery skipped ahead.  Either way at
      least one token was consumed. */
  ghost predicate DeclParsed(tokens: seq<Token>, d: Option<Stmt>,
                             start: nat, stop: nat, firstId: nat, lastId: nat,
                             errors0: seq<Diagnostic>, errors1: seq<Diagnostic>)
  {
    && start < stop && firstId <= lastId && errors0 <= errors1
    && (d.None? ==> |errors1| > |errors0|)
    && (d.Some? ==> StmtBuilt(tokens, d.value, start, stop, firstId, lastId, |errors1| == |errors0|))
  }

  /** `s` is a statement of the grammar made of at least one token, with
      well-nested expressions and increasing ids drawn from
      `[firstId, lastId)`, spelled by `tokens[start..stop]` when no error was
      reported. */
  ghost predicate StmtBuilt(tokens: seq<Token>, s: Stmt, start: nat, stop: nat,
                            firstId: nat, lastId: nat, clean: bool)
  {
    && start < stop
    && StmtWellNested(s)
    && IdsWithin(StmtIds(s), firstId, lastId)
    && (clean ==> Spells(tokens, start, stop, FlattenStmt(s)))
  }

  /** The declarations parsed so far in a block or a program, from `lo` to
      `hi`: well nested, with increasing ids, and when no error was reported
      all present and spelled by the tokens. */
  ghost predicate Declarations(tokens: seq<Token>, statements: seq<Option<Stmt>>, lo: nat, hi: nat,
                               firstId: nat, lastId: nat, clean: bool)
  {
    && (forall i :: 0 <= i < |statements| ==>
          statements[i].Some? ==> StmtWellNested(statements[i].value))
    && IdsWithin(BlockIds(statements), firstId, lastId)
    && (clean ==> (forall i :: 0 <= i < |statements| ==> statements[i].Some?)
                  && Spells(tokens, lo, hi, FlattenBlock(statements)))
  }

  lemma {:induction false} FlattenPrefixSnoc(statements: seq<Option<Stmt>>, d: Option<Stmt>, n: nat)
    requires n <= |statements|
    ensures FlattenPrefix(Stmt.Block(statements + [d]), n) == FlattenPrefix(Stmt.Block(statements), n)
    ensures IdsPrefix(Stmt.Block(statements + [d]), n) == IdsPrefix(Stmt.Block(statements), n)
  {
    if n > 0 {
      FlattenPrefixSnoc(statements, d, n - 1);
      assert (statements + [d])[n - 1] == statements[n - 1];
    }
  }

  /** Appending a declaration to a block appends its symbols and its ids. */
  lemma BlockSnoc(statements: seq<Option<Stmt>>, d: Option<Stmt>)
    ensures FlattenBlock(statements + [d]) == FlattenBlock(statements) + (if d.Some? then FlattenStmt(d.value) else [])
    ensures BlockIds(statements + [d]) == BlockIds(statements) + (if d.Some? then StmtIds(d.value) else [])
  {
    FlattenPrefixSnoc(statements, d, |statements|);
    assert (statements + [d])[|statements|] == d;
  }

  /** The nodes of a parsed statement list have pairwise distinct ids, so
      each key of the Interpreter's side table names one node. */
  lemma DeclarationsIdsDistinct(tokens: seq<Token>, statements: seq<Option<Stmt>>, lo: nat, hi: nat,
                                firstId: nat, lastId: nat, clean: bool, i: nat, j: nat)
    requires Declarations(tokens, statements, lo, hi, firstId, lastId, clean)
    requires i < |BlockIds(statements)| && j < |BlockIds(statements)| && i != j
    ensures BlockIds(statements)[i] != BlockIds(statements)[j]
  {
    if i < j {
      IdsDistinct(BlockIds(statements), firstId, lastId, i, j);
    } else {
      IdsDistinct(BlockIds(statements), firstId, lastId, j, i);
    }
  }

  /** One more declaration, parsed from `mid` to `stop`. */
  lemma DeclarationsSnoc(tokens: seq<Token>, statements: seq<Option<Stmt>>, d: Option<Stmt>,
                         lo: nat, mid: nat, stop: nat, firstId: nat, midId: nat, lastId: nat,
                         errors0: seq<Diagnostic>, errorsMid: seq<Diagnostic>, errors1: seq<Diagnostic>)
    requires errors0 <= errorsMid && firstId <= midId
    requires Declarations(tokens, statements, lo, mid, firstId, midId, |errorsMid| == |errors0|)
    requires DeclParsed(tokens, d, mid, stop, midId, lastId, errorsMid, errors1)
    ensures Declarations(tokens, statements + [d], lo, stop, firstId, lastId, |errors1| == |errors0|)
  {
    BlockSnoc(statements, d);
    var extra := if d.Some? then StmtIds(d.value) else [];
    assert IdsWithin(extra, midId, lastId);
    IdsConcat(BlockIds(statements), extra, firstId, midId, lastId);
    if |errors1| == |errors0| {
      SpellsConcat(tokens, lo, mid, stop, FlattenBlock(statements), FlattenStmt(d.value));
    }
  }

  /** A block closed by its `}` at `stop - 1`, opened by the `{` at `start`. */
  lemma BlockClosed(tokens: seq<Token>, statements: seq<Option<Stmt>>, start: nat, close: nat, stop: nat,
                    firstId: nat, lastId: nat, clean: bool)
    requires start < close < stop <= |tokens| && stop == close + 1
    requires tokens[start].kind == LeftBrace && tokens[close].kind == RightBrace
    requires Declarations(tokens, statements, start + 1, close, firstId, lastId, clean)
    ensures StmtBuilt(tokens, Stmt.Block(statements), start, stop, firstId, lastId, clean)
  {
    var b := Stmt.Block(statements);
    assert StmtIds(b) == BlockIds(statements);
    assert StmtWellNested(b);
    if clean {
      BlockSpelled(tokens, statements, start, close, stop);
    }
  }

  /** The braces around a block's spelled declarations spell the block. */
  lemma BlockSpelled(tokens: seq<Token>, statements: seq<Option<Stmt>>, start: nat, close: nat, stop: nat)
    requires start < close < stop <= |tokens| && stop == close + 1
    requires tokens[start].kind == LeftBrace && tokens[close].kind == RightBrace
    requires Spells(tokens, start + 1, close, FlattenBlock(statements))
    ensures Spells(tokens, start, stop, FlattenStmt(Stmt.Block(statements)))
  {
    SpellsOne(tokens, start);
    SpellsOne(tokens, close);
    SpellsConcat(tokens, start, start + 1, close, [Punct(LeftBrace)], FlattenBlock(statements));
    SpellsConcat(tokens, start, close, stop, [Punct(LeftBrace)] + FlattenBlock(statements), [Punct(RightBrace)]);
    assert FlattenStmt(Stmt.Block(statements)) == [Punct(LeftBrace)] + FlattenBlock(statements) + [Punct(RightBrace)];
  }

  /** `keyword expression ;` where the keyword at `start` stands for `head`
      and the expression was parsed from `start + 1`, or (no keyword) an
      expression statement. */
  lemma TerminatedParsed(tokens: seq<Token>, s: Stmt, e: Expr, start: nat, mid: nat, close: nat, stop: nat,
                         firstId: nat, lastId: nat, errors0: seq<Diagnostic>, errors1: seq<Diagnostic>)
    requires start <= mid <= close < stop <= |tokens| && stop == close + 1 && tokens[close].kind == Semicolon
    requires (s == Stmt.Print(e) && start + 1 == mid && tokens[start].kind == TokenType.Print)
          || (s == Stmt.Expression(e) && start == mid)
    requires ExprParsed(tokens, Ok(e), 0, mid, close, firstId, lastId, errors0, errors1)
    ensures StmtParsed(tokens, Ok(s), start, stop, firstId, lastId, errors0, errors1)
  {
    if |errors1| == |errors0| {
      SpellsOne(tokens, close);
      SpellsConcat(tokens, mid, close, stop, Flatten(e), [Punct(Semicolon)]);
      if s.Print? {
        SpellsOne(tokens, start);
        SpellsConcat(tokens, start, mid, stop, [Punct(TokenType.Print)], Flatten(e) + [Punct(Semicolon)]);
        assert FlattenStmt(s) == [Punct(TokenType.Print)] + (Flatten(e) + [Punct(Semicolon)]);
      }
    }
  }

  /** `var name ;` or `var name = initializer ;`, the `var` at `start`, the
      name at `start + 1` and the `;` at `stop - 1`. */
  lemma VarParsed(tokens: seq<Token>, name: Token, initializer: Option<Expr>,
                  start: nat, valueAt: nat, close: nat, stop: nat,
                  firstId: nat, lastId: nat, errors0: seq<Diagnostic>, errors1: seq<Diagnostic>)
    requires start + 2 <= close < stop <= |tokens| && stop == close + 1 && errors0 <= errors1 && firstId <= lastId
    requires tokens[start].kind == TokenType.Var && tokens[start + 1] == name && name.kind == Identifier
    requires tokens[close].kind == Semicolon
    requires initializer.None? ==> close == start + 2
    requires initializer.Some? ==>
      && valueAt == start + 3 && valueAt < close && tokens[start + 2].kind == Equal
      && ExprParsed(tokens, Ok(initializer.value), 0, valueAt, close, firstId, lastId, errors0, errors1)
    ensures StmtParsed(tokens, Ok(Stmt.Var(name, initializer)), start, stop, firstId, lastId, errors0, errors1)
  {
    if |errors1| == |errors0| {
      VarSpells(tokens, name, initializer, start, valueAt, close, stop);
    }
  }

  lemma VarSpells(tokens: seq<Token>, name: Token, initializer: Option<Expr>,
                  start: nat, valueAt: nat, close: nat, stop: nat)
    requires start + 2 <= close < stop <= |tokens| && stop == close + 1
    requires tokens[start].kind == TokenType.Var && tokens[start + 1] == name && name.kind == Identifier
    requires tokens[close].kind == Semicolon
    requires initializer.None? ==> close == start + 2
    requires initializer.Some? ==>
      && valueAt == start + 3 && valueAt < close && tokens[start + 2].kind == Equal
      && Spells(tokens, valueAt, close, Flatten(initializer.value))
    ensures Spells(tokens, start, stop, FlattenStmt(Stmt.Var(name, initializer)))
  {
    if initializer.Some? {
      InitializedVarSpells(tokens, name, initializer.value, start, valueAt, close, stop);
    } else {
      var syms := FlattenStmt(Stmt.Var(name, initializer));
      assert syms == [Punct(TokenType.Var), TokenSym(name)] + [] + [Punct(Semicolon)];
    }
  }

  /** `var name = value ;`, the value parsed from `valueAt`. */
  lemma InitializedVarSpells(tokens: seq<Token>, name: Token, value: Expr,
                             start: nat, valueAt: nat, close: nat, stop: nat)
    requires start + 3 == valueAt < close < stop <= |tokens| && stop == close + 1
    requires tokens[start].kind == TokenType.Var && tokens[start + 1] == name && name.kind == Identifier
    requires tokens[start + 2].kind == Equal && tokens[close].kind == Semicolon
    requires Spells(tokens, valueAt, close, Flatten(value))
    ensures Spells(tokens, start, stop, FlattenStmt(Stmt.Var(name, Some(value))))
  {
    var syms := FlattenStmt(Stmt.Var(name, Some(value)));
    var text := Flatten(value);
    assert syms == [Punct(TokenType.Var), TokenSym(name)] + ([Punct(Equal)] + text) + [Punct(Semicolon)];
    forall k | start <= k < stop
      ensures TokenSym(tokens[k]) == syms[k - start]
    {
      if valueAt <= k < close {
        assert syms[k - start] == text[k - valueAt];
      }
    }
  }

  /** The token kinds that start a statement, where error recovery resumes. */
  const StatementStarts: set<TokenType> :=
    {TokenType.Class, Fun, TokenType.Var, For, TokenType.If, TokenType.While, TokenType.Print, TokenType.Return}

  /** Error recovery passes position `k`: the token before it is not a `;`
      and the token at it neither ends the input nor starts a statement. */
  ghost predicate Skipped(tokens: seq<Token>, k: nat)
    requires 0 < k < |tokens|
  {
    tokens[k - 1].kind != Semicolon && tokens[k].kind != Eof && tokens[k].kind !in StatementStarts
  }
}
