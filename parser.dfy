/** The recursive-descent Parser: a cursor over the token list that builds
    statements and expressions, reports syntax errors and recovers at
    statement boundaries.

    What is proved about it:
    - every expression it returns is well nested: each operator's operands
      bind at least as tightly as the grammar demands, and the binary
      operators associate to the left (`WellNested`, `Level`);
    - when no error was reported, the tokens it consumed spell exactly the
      returned tree, so nothing is dropped or reordered (`Spells`, `Flatten`);
    - the node ids it hands out are increasing and lie in the range of the
      id counter it advanced (`IdsWithin`);
    - a `ParseError` is never raised without a report, errors are only ever
      appended, and the cursor only moves forward. */
module Parser {
  import opened Wrappers
  import opened Tokens
  import opened Ast
  import opened ParserSpec

  class Parser {
    const tokens: seq<Token>
    /** The index of the next token to read. */
    var current: nat
    /** The id the next variable or assignment node receives. */
    var nextId: nat
    /** The syntax errors reported so far, oldest first. */
    var errors: seq<Diagnostic>

    ghost predicate Valid()
      reads this
    {
      |tokens| > 0 && tokens[|tokens| - 1].kind == Eof && current < |tokens|
    }

    /** The scanner always ends the token list with an end-of-input token. */
    constructor (tokens: seq<Token>)
      requires |tokens| > 0 && tokens[|tokens| - 1].kind == Eof
      ensures Valid() && this.tokens == tokens
      ensures current == 0 && nextId == 0 && errors == []
    {
      this.tokens := tokens;
      current := 0;
      nextId := 0;
      errors := [];
    }

    function Peek(): Token
      reads this
      requires Valid()
    {
      tokens[current]
    }

    function Previous(): Token
      reads this
      requires Valid() && current > 0
    {
      tokens[current - 1]
    }

    function IsAtEnd(): bool
      reads this
      requires Valid()
    {
      Peek().kind == Eof
    }

    function Check(kind: TokenType): (b: bool)
      reads this
      requires Valid()
      ensures b <==> !IsAtEnd() && Peek().kind == kind
    {
      if IsAtEnd() then false else Peek().kind == kind
    }

    /** Moves past the current token unless it is the end of input, and
        returns the token just passed.  The source reads `tokens[-1]` when
        called on a list holding only the end token; no caller does that. */
    method Advance() returns (previous: Token)
      requires Valid() && (current > 0 || !IsAtEnd())
      modifies this`current
      ensures Valid()
      ensures current == if old(IsAtEnd()) then old(current) else old(current) + 1
      ensures current > 0 && previous == tokens[current - 1]
    {
      if !IsAtEnd() {
        current := current + 1;
      }
      previous := Previous();
    }

    /** Consumes the current token when it has one of `kinds`. */
    method Match(kinds: seq<TokenType>) returns (matched: bool)
      requires Valid()
      modifies this`current
      ensures Valid()
      ensures matched <==> !old(IsAtEnd()) && old(Peek()).kind in kinds
      ensures current == if matched then old(current) + 1 else old(current)
      ensures matched ==> current > 0 && Previous().kind in kinds
    {
      for i := 0 to |kinds|
        invariant current == old(current)
        invariant forall j :: 0 <= j < i ==> !Check(kinds[j])
      {
        if Check(kinds[i]) {
          var _ := Advance();
          return true;
        }
      }
      return false;
    }

    /** Reports a syntax error located at `token`. */
    method Error(token: Token, message: string)
      modifies this`errors
      ensures errors == old(errors) + [ErrorAt(token, message)]
    {
      errors := errors + [ErrorAt(token, message)];
    }

    /** Consumes a token of kind `kind`, or reports `message` at the current
        token and fails without moving. */
    method Consume(kind: TokenType, message: string) returns (r: Parsed<Token>)
      requires Valid()
      modifies this`current, this`errors
      ensures Valid()
      ensures old(Check(kind)) ==> r == Ok(old(Peek())) && current == old(current) + 1 && errors == old(errors)
      ensures !old(Check(kind)) ==>
        r == ParseError && current == old(current) && errors == old(errors) + [ErrorAt(old(Peek()), message)]
    {
      if Check(kind) {
        var t := Advance();
        return Ok(t);
      }
      Error(Peek(), message);
      return ParseError;
    }

    /** Skips tokens after a syntax error: past the offending token, then up
        to the first point that follows a `;` or precedes a token that
        starts a statement, or to the end of input. */
    method Synchronize()
      requires Valid() && (current > 0 || !IsAtEnd())
      modifies this`current
      ensures Valid() && current > 0
      ensures old(current) <= current && (!old(IsAtEnd()) ==> old(current) < current)
      ensures IsAtEnd() || Previous().kind == Semicolon || Peek().kind in StatementStarts
      ensures forall k :: old(current) < k < current ==> Skipped(tokens, k)
    {
      var _ := Advance();
      while !IsAtEnd()
        invariant Valid() && current > 0 && (old(current) < current || IsAtEnd())
        invariant forall k :: old(current) < k < current ==> Skipped(tokens, k)
        decreases |tokens| - current
      {
        if Previous().kind == Semicolon {
          return;
        }
        if Peek().kind in StatementStarts {
          return;
        }
        var _ := Advance();
      }
    }

    /** Parses declarations up to the end of input.  When no error was
        reported, every declaration is present and the tokens before the end
        token spell the program exactly. */
    method Parse() returns (statements: seq<Option<Stmt>>)
      requires Valid()
      modifies this`current, this`nextId, this`errors
      ensures Valid() && IsAtEnd()
      ensures old(current) <= current && old(nextId) <= nextId && old(errors) <= errors
      ensures Declarations(tokens, statements, old(current), current, old(nextId), nextId, |errors| == |old(errors)|)
    {
      statements := [];
      while !IsAtEnd()
        invariant Valid() && old(current) <= current && old(nextId) <= nextId && old(errors) <= errors
        invariant Declarations(tokens, statements, old(current), current, old(nextId), nextId, |errors| == |old(errors)|)
        decreases |tokens| - current
      {
        ghost var mid, midId, errorsMid := current, nextId, errors;
        var d := Declaration();
        DeclarationsSnoc(tokens, statements, d, old(current), mid, current, old(nextId), midId, nextId,
                         old(errors), errorsMid, errors);
        statements := statements + [d];
      }
    }

    /** A variable declaration or a statement; after a syntax error, skips
        ahead to the next statement boundary and yields `None`. */
    method Declaration() returns (d: Option<Stmt>)
      requires Valid() && !IsAtEnd()
      modifies this`current, this`nextId, this`errors
      ensures Valid() && DeclParsed(tokens, d, old(current), current, old(nextId), nextId, old(errors), errors)
      ensures d.None? ==> IsAtEnd() || Previous().kind == Semicolon || Peek().kind in StatementStarts
      decreases |tokens| - current, 14
    {
      ghost var start := current;
      var r: Parsed<Stmt>;
      var matched := Match([TokenType.Var]);
      if matched {
        r := VarDeclaration(start);
      } else {
        r := Statement();
      }
      if r.ParseError? {
        Synchronize();
        return None;
      }
      return Some(r.value);
    }

    /** `var name (= initializer)? ;` after its `var` at `start`. */
    method VarDeclaration(ghost start: nat) returns (r: Parsed<Stmt>)
      requires Valid() && start + 1 == current && tokens[start].kind == TokenType.Var
      modifies this`current, this`nextId, this`errors
      ensures Valid() && StmtParsed(tokens, r, start, current, old(nextId), nextId, old(errors), errors)
      ensures r.Ok? ==> r.value.Var?
      decreases |tokens| - current, 13
    {
      var name := Consume(Identifier, "Expect variable name.");
      if name.ParseError? {
        return ParseError;
      }
      var initializer := VarInitializer(start);
      if initializer.ParseError? {
        return ParseError;
      }
      ghost var close := current;
      var semicolon := Consume(Semicolon, "Expect ';' after variable declaration.");
      if semicolon.ParseError? {
        return ParseError;
      }
      VarParsed(tokens, name.value, initializer.value, start, start + 3, close, current, old(nextId), nextId, old(errors), errors);
      return Ok(Stmt.Var(name.value, initializer.value));
    }

    /** The optional `= initializer` of a variable declaration whose name is
        at `start + 1`. */
    method VarInitializer(ghost start: nat) returns (r: Parsed<Option<Expr>>)
      requires Valid() && start + 2 == current
      modifies this`current, this`nextId, this`errors
      ensures Valid() && old(current) <= current && old(nextId) <= nextId && old(errors) <= errors
      ensures r.ParseError? ==> |errors| > |old(errors)|
      ensures r == Ok(None) ==> current == start + 2
      ensures r.Ok? && r.value.Some? ==>
        && start + 3 < current && tokens[start + 2].kind == Equal
        && ExprParsed(tokens, Ok(r.value.value), 0, start + 3, current, old(nextId), nextId, old(errors), errors)
      decreases |tokens| - current, 12
    {
      var matched := Match([Equal]);
      if !matched {
        return Ok(None);
      }
      var value := Expression();
      if value.ParseError? {
        return ParseError;
      }
      return Ok(Some(value.value));
    }

    /** A print statement, a block, or an expression statement. */
    method Statement() returns (r: Parsed<Stmt>)
      requires Valid()
      modifies this`current, this`nextId, this`errors
      ensures Valid() && StmtParsed(tokens, r, old(current), current, old(nextId), nextId, old(errors), errors)
      decreases |tokens| - current, 13
    {
      ghost var start := current;
      var matched := Match([TokenType.Print]);
      if matched {
        r := PrintStatement(start);
        return r;
      }
      matched := Match([LeftBrace]);
      if matched {
        var statements := Block(start);
        if statements.ParseError? {
          return ParseError;
        }
        return Ok(Stmt.Block(statements.value));
      }
      r := ExpressionStatement();
    }

    /** The declarations of a block up to its closing `}`, after the `{` at
        `start`. */
    method Block(ghost start: nat) returns (r: Parsed<seq<Option<Stmt>>>)
      requires Valid() && start + 1 == current && tokens[start].kind == LeftBrace
      modifies this`current, this`nextId, this`errors
      ensures Valid() && start < current && old(nextId) <= nextId && old(errors) <= errors
      ensures r.ParseError? ==> |errors| > |old(errors)| && errors[|errors| - 1] == ErrorAt(Peek(), "Expect '}' after block.")
      ensures r.Ok? ==> StmtBuilt(tokens, Stmt.Block(r.value), start, current, old(nextId), nextId, |errors| == |old(errors)|)
      decreases |tokens| - current, 16
    {
      var statements: seq<Option<Stmt>> := [];
      while !Check(RightBrace) && !IsAtEnd()
        invariant Valid() && start < current && old(nextId) <= nextId && old(errors) <= errors
        invariant Declarations(tokens, statements, start + 1, current, old(nextId), nextId, |errors| == |old(errors)|)
        decreases |tokens| - current
      {
        statements := BlockDeclaration(start, statements, old(nextId), old(errors));
      }
      ghost var close := current;
      var closing := Consume(RightBrace, "Expect '}' after block.");
      if closing.ParseError? {
        return ParseError;
      }
      BlockClosed(tokens, statements, start, close, current, old(nextId), nextId, |errors| == |old(errors)|);
      return Ok(statements);
    }

    /** One more declaration of a block. */
    method BlockDeclaration(ghost start: nat, statements: seq<Option<Stmt>>, ghost firstId: nat, ghost errors0: seq<Diagnostic>)
      returns (statements': seq<Option<Stmt>>)
      requires Valid() && !IsAtEnd() && start < current && firstId <= nextId && errors0 <= errors
      requires Declarations(tokens, statements, start + 1, current, firstId, nextId, |errors| == |errors0|)
      modifies this`current, this`nextId, this`errors
      ensures Valid() && old(current) < current && old(nextId) <= nextId && old(errors) <= errors
      ensures Declarations(tokens, statements', start + 1, current, firstId, nextId, |errors| == |errors0|)
      decreases |tokens| - current, 15
    {
      var d := Declaration();
      DeclarationsSnoc(tokens, statements, d, start + 1, old(current), current, firstId, old(nextId), nextId,
                       errors0, old(errors), errors);
      statements' := statements + [d];
    }

    /** `print expression ;` after its `print` at `start`. */
    method PrintStatement(ghost start: nat) returns (r: Parsed<Stmt>)
      requires Valid() && start + 1 == current && tokens[start].kind == TokenType.Print
      modifies this`current, this`nextId, this`errors
      ensures Valid() && StmtParsed(tokens, r, start, current, old(nextId), nextId, old(errors), errors)
      ensures r.Ok? ==> r.value.Print?
      decreases |tokens| - current, 12
    {
      ghost var mid := current;
      var value := Expression();
      if value.ParseError? {
        return ParseError;
      }
      ghost var close := current;
      var semicolon := Consume(Semicolon, "Expect ';' after value.");
      if semicolon.ParseError? {
        return ParseError;
      }
      TerminatedParsed(tokens, Stmt.Print(value.value), value.value, start, mid, close, current,
                       old(nextId), nextId, old(errors), errors);
      return Ok(Stmt.Print(value.value));
    }

    /** `expression ;`. */
    method ExpressionStatement() returns (r: Parsed<Stmt>)
      requires Valid()
      modifies this`current, this`nextId, this`errors
      ensures Valid() && StmtParsed(tokens, r, old(current), current, old(nextId), nextId, old(errors), errors)
      ensures r.Ok? ==> r.value.Expression?
      decreases |tokens| - current, 12
    {
      ghost var start := current;
      var value := Expression();
      if value.ParseError? {
        return ParseError;
      }
      ghost var close := current;
      var semicolon := Consume(Semicolon, "Expect ';' after expression.");
      if semicolon.ParseError? {
        return ParseError;
      }
      TerminatedParsed(tokens, Stmt.Expression(value.value), value.value, start, start, close, current,
                       old(nextId), nextId, old(errors), errors);
      return Ok(Stmt.Expression(value.value));
    }

    method Expression() returns (r: Parsed<Expr>)
      requires Valid()
      modifies this`current, this`nextId, this`errors
      ensures Valid() && ExprParsed(tokens, r, 0, old(current), current, old(nextId), nextId, old(errors), errors)
      decreases |tokens| - current, 8
    {
      r := Assignment();
    }

    method Assignment() returns (r: Parsed<Expr>)
      requires Valid()
      modifies this`current, this`nextId, this`errors
      ensures Valid() && ExprParsed(tokens, r, 0, old(current), current, old(nextId), nextId, old(errors), errors)
      decreases |tokens| - current, 7
    {
      ghost var start, firstId, errors0 := current, nextId, errors;
      var expr := Equality();
      if expr.ParseError? {
        return ParseError;
      }
      r := AssignmentTail(expr.value, start, firstId, errors0);
    }

    /** The rest of an assignment once its left-hand side `expr` has been
        parsed: when `=` follows, the right-hand side is parsed (it may be
        another assignment), and a left-hand side that is not a variable is
        reported at the `=` and returned unchanged without failing. */
    method AssignmentTail(expr: Expr, ghost start: nat, ghost firstId: nat, ghost errors0: seq<Diagnostic>)
      returns (r: Parsed<Expr>)
      requires Valid() && ExprParsed(tokens, Ok(expr), 1, start, current, firstId, nextId, errors0, errors)
      modifies this`current, this`nextId, this`errors
      ensures Valid() && ExprParsed(tokens, r, 0, start, current, firstId, nextId, errors0, errors)
      ensures !old(Check(Equal)) ==> r == Ok(expr) && current == old(current) && nextId == old(nextId) && errors == old(errors)
      ensures old(Check(Equal)) && r.Ok? && expr.Variable? ==>
        r.value.Assign? && r.value.name == expr.name
      ensures old(Check(Equal)) && r.Ok? && !expr.Variable? ==>
        r == Ok(expr) && |errors| > 0 && errors[|errors| - 1] == ErrorAt(old(Peek()), "Invalid assignment target.")
      decreases |tokens| - current, 6
    {
      ghost var eqAt := current;
      var matched := Match([Equal]);
      if !matched {
        return Ok(expr);
      }
      var equals := Previous();
      ghost var mid, midId, errors1 := current, nextId, errors;
      var value := Assignment();
      if value.ParseError? {
        return ParseError;
      }
      if expr.Variable? {
        var id := nextId;
        nextId := nextId + 1;
        AssignParsed(tokens, expr, id, value.value, start, eqAt, mid, current, firstId, midId, errors0, errors1, errors);
        return Ok(Expr.Assign(id, expr.name, value.value));
      }
      Error(equals, "Invalid assignment target.");
      ReportedParsed(tokens, expr, 1, start, eqAt, current, firstId, midId, nextId, errors0, errors1, errors);
      return Ok(expr);
    }

    method Equality() returns (r: Parsed<Expr>)
      requires Valid()
      modifies this`current, this`nextId, this`errors
      ensures Valid() && ExprParsed(tokens, r, 1, old(current), current, old(nextId), nextId, old(errors), errors)
      decreases |tokens| - current, 5
    {
      ghost var start, firstId, errors0 := current, nextId, errors;
      var left := Comparison();
      if left.ParseError? {
        return ParseError;
      }
      var expr := left.value;
      ghost var stop := current;
      var matched := Match([BangEqual, EqualEqual]);
      while matched
        invariant Valid() && ExprParsed(tokens, Ok(expr), 1, start, stop, firstId, nextId, errors0, errors)
        invariant current == if matched then stop + 1 else stop
        invariant matched ==> current > 0 && Previous().kind in [BangEqual, EqualEqual]
        decreases |tokens| - current
      {
        var operator := Previous();
        assert Prec(operator.kind) == 1;
        ghost var mid, midId, errorsMid := current, nextId, errors;
        var right := Comparison();
        if right.ParseError? {
          return ParseError;
        }
        BinaryParsed(tokens, expr, operator, right.value, 1, start, stop, mid, current,
                     firstId, midId, nextId, errors0, errorsMid, errors);
        expr := Expr.Binary(expr, operator, right.value);
        stop := current;
        matched := Match([BangEqual, EqualEqual]);
      }
      return Ok(expr);
    }

    method Comparison() returns (r: Parsed<Expr>)
      requires Valid()
      modifies this`current, this`nextId, this`errors
      ensures Valid() && ExprParsed(tokens, r, 2, old(current), current, old(nextId), nextId, old(errors), errors)
      decreases |tokens| - current, 4
    {
      ghost var start, firstId, errors0 := current, nextId, errors;
      var left := Term();
      if left.ParseError? {
        return ParseError;
      }
      var expr := left.value;
      ghost var stop := current;
      var matched := Match([Greater, GreaterEqual, Less, LessEqual]);
      while matched
        invariant Valid() && ExprParsed(tokens, Ok(expr), 2, start, stop, firstId, nextId, errors0, errors)
        invariant current == if matched then stop + 1 else stop
        invariant matched ==> current > 0 && Previous().kind in [Greater, GreaterEqual, Less, LessEqual]
        decreases |tokens| - current
      {
        var operator := Previous();
        assert Prec(operator.kind) == 2;
        ghost var mid, midId, errorsMid := current, nextId, errors;
        var right := Term();
        if right.ParseError? {
          return ParseError;
        }
        BinaryParsed(tokens, expr, operator, right.value, 2, start, stop, mid, current,
                     firstId, midId, nextId, errors0, errorsMid, errors);
        expr := Expr.Binary(expr, operator, right.value);
        stop := current;
        matched := Match([Greater, GreaterEqual, Less, LessEqual]);
      }
      return Ok(expr);
    }

    method Term() returns (r: Parsed<Expr>)
      requires Valid()
      modifies this`current, this`nextId, this`errors
      ensures Valid() && ExprParsed(tokens, r, 3, old(current), current, old(nextId), nextId, old(errors), errors)
      decreases |tokens| - current, 3
    {
      ghost var start, firstId, errors0 := current, nextId, errors;
      var left := Factor();
      if left.ParseError? {
        return ParseError;
      }
      var expr := left.value;
      ghost var stop := current;
      var matched := Match([Minus, Plus]);
      while matched
        invariant Valid() && ExprParsed(tokens, Ok(expr), 3, start, stop, firstId, nextId, errors0, errors)
        invariant current == if matched then stop + 1 else stop
        invariant matched ==> current > 0 && Previous().kind in [Minus, Plus]
        decreases |tokens| - current
      {
        var operator := Previous();
        assert Prec(operator.kind) == 3;
        ghost var mid, midId, errorsMid := current, nextId, errors;
        var right := Factor();
        if right.ParseError? {
          return ParseError;
        }
        BinaryParsed(tokens, expr, operator, right.value, 3, start, stop, mid, current,
                     firstId, midId, nextId, errors0, errorsMid, errors);
        expr := Expr.Binary(expr, operator, right.value);
        stop := current;
        matched := Match([Minus, Plus]);
      }
      return Ok(expr);
    }

    method Factor() returns (r: Parsed<Expr>)
      requires Valid()
      modifies this`current, this`nextId, this`errors
      ensures Valid() && ExprParsed(tokens, r, 4, old(current), current, old(nextId), nextId, old(errors), errors)
      decreases |tokens| - current, 2
    {
      ghost var start, firstId, errors0 := current, nextId, errors;
      var left := Unary();
      if left.ParseError? {
        return ParseError;
      }
      var expr := left.value;
      ghost var stop := current;
      var matched := Match([Slash, Star]);
      while matched
        invariant Valid() && ExprParsed(tokens, Ok(expr), 4, start, stop, firstId, nextId, errors0, errors)
        invariant current == if matched then stop + 1 else stop
        invariant matched ==> current > 0 && Previous().kind in [Slash, Star]
        decreases |tokens| - current
      {
        var operator := Previous();
        assert Prec(operator.kind) == 4;
        ghost var mid, midId, errorsMid := current, nextId, errors;
        var right := Unary();
        if right.ParseError? {
          return ParseError;
        }
        BinaryParsed(tokens, expr, operator, right.value, 4, start, stop, mid, current,
                     firstId, midId, nextId, errors0, errorsMid, errors);
        expr := Expr.Binary(expr, operator, right.value);
        stop := current;
        matched := Match([Slash, Star]);
      }
      return Ok(expr);
    }

    method Unary() returns (r: Parsed<Expr>)
      requires Valid()
      modifies this`current, this`nextId, this`errors
      ensures Valid() && ExprParsed(tokens, r, 5, old(current), current, old(nextId), nextId, old(errors), errors)
      decreases |tokens| - current, 1
    {
      ghost var start := current;
      var matched := Match([Bang, Minus]);
      if matched {
        var operator := Previous();
        ghost var mid := current;
        var right := Unary();
        if right.ParseError? {
          return ParseError;
        }
        UnaryParsed(tokens, operator, right.value, start, mid, current, old(nextId), nextId, old(errors), errors);
        return Ok(Expr.Unary(operator, right.value));
      }
      r := Primary();
    }

    /** The token kinds a primary expression can start with. */
    static const PrimaryStarts: set<TokenType> := {False, True, Nil, Number, String, Identifier, LeftParen}

    method Primary() returns (r: Parsed<Expr>)
      requires Valid()
      modifies this`current, this`nextId, this`errors
      ensures Valid() && ExprParsed(tokens, r, 6, old(current), current, old(nextId), nextId, old(errors), errors)
      ensures old(Peek()).kind !in PrimaryStarts ==>
        r == ParseError && current == old(current) && errors == old(errors) + [ErrorAt(old(Peek()), "Expect expression.")]
      decreases |tokens| - current, 0
    {
      ghost var start, firstId, first := current, nextId, Peek();
      var matched := Match([False]);
      if matched {
        assert first.kind in PrimaryStarts;
        r := Ok(Expr.Literal(BoolValue(false)));
        AtomParsed(tokens, r.value, start, current, firstId, nextId, errors);
        return r;
      }
      matched := Match([True]);
      if matched {
        assert first.kind in PrimaryStarts;
        r := Ok(Expr.Literal(BoolValue(true)));
        AtomParsed(tokens, r.value, start, current, firstId, nextId, errors);
        return r;
      }
      matched := Match([Nil]);
      if matched {
        assert first.kind in PrimaryStarts;
        r := Ok(Expr.Literal(NilValue));
        AtomParsed(tokens, r.value, start, current, firstId, nextId, errors);
        return r;
      }
      matched := Match([Number, String]);
      if matched {
        assert first.kind in PrimaryStarts;
        r := Ok(Expr.Literal(FromTokenLiteral(Previous().literal)));
        AtomParsed(tokens, r.value, start, current, firstId, nextId, errors);
        return r;
      }
      matched := Match([Identifier]);
      if matched {
        assert first.kind in PrimaryStarts;
        var id := nextId;
        nextId := nextId + 1;
        r := Ok(Expr.Variable(id, Previous()));
        AtomParsed(tokens, r.value, start, current, firstId, nextId, errors);
        return r;
      }
      matched := Match([LeftParen]);
      if matched {
        assert first.kind in PrimaryStarts;
        r := GroupingRest(start);
        return r;
      }
      Error(Peek(), "Expect expression.");
      return ParseError;
    }

    /** A parenthesised expression after its `(`: the inner expression and
        the closing `)`. */
    method GroupingRest(ghost start: nat) returns (r: Parsed<Expr>)
      requires Valid() && start + 1 == current && tokens[start].kind == LeftParen
      modifies this`current, this`nextId, this`errors
      ensures Valid() && ExprParsed(tokens, r, 6, start, current, old(nextId), nextId, old(errors), errors)
      ensures r.Ok? ==> r.value.Grouping?
      decreases |tokens| - current, 9
    {
      ghost var mid := current;
      var inner := Expression();
      if inner.ParseError? {
        return ParseError;
      }
      ghost var close := current;
      var closing := Consume(RightParen, "Expect ')' after expression.");
      if closing.ParseError? {
        return ParseError;
      }
      GroupingParsed(tokens, inner.value, start, mid, close, current, old(nextId), nextId, old(errors), errors);
      r := Ok(Expr.Grouping(inner.value));
    }
  }
}
