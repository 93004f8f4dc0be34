/**
 * The compiler server's runner: the spelling of each token type, the JSON
 * object written for one token, and the `/lexer` route, which answers with
 * a JSON array of the tokens of the submitted program.
 */
module ServerRunner {
  import opened Text
  import opened ResponseCreator
  import Server

  // ---------------------------------------------------------------------------
  // Token types
  // ---------------------------------------------------------------------------

  /** `enum tokenType`, in declaration order. */
  datatype TokenType =
      I_ID
    | V_NUM_INT
    | V_NUM_FLOAT
    | V_STRING
    | R_VOID
    | R_MAIN
    | R_IF
    | R_ELSE
    | R_FOR
    | R_WHILE
    | R_INT
    | R_FLOAT
    | R_CHAR
    | R_SCANF
    | R_PRINT
    | R_RETURN
    | S_OPEN_PARENTHESIS
    | S_CLOSE_PARENTHESIS
    | S_OPEN_SQUARE_BRACKETS
    | S_CLOSE_SQUARE_BRACKETS
    | S_OPEN_CURLY_BRACKETS
    | S_CLOSE_CURLY_BRACKETS
    | S_ATTRIBUTION
    | S_COMMA
    | S_SEMICOLON
    | S_DOT
    | O_EQUAL
    | O_ADD
    | O_SUBTRACT
    | O_MULTIPLY
    | O_DIVIDE
    | O_MOD
    | O_LESS
    | O_LESS_EQUAL
    | O_GREATER
    | O_GREATER_EQUAL
    | O_INCREMENT
    | O_DECREMENT
    | C_LINE_COMMENT
    | C_BLOCK_COMMENT

  /**
   * The group a token type belongs to, which the letter before the first
   * underscore of its name tells: identifier, value, reserved word, symbol,
   * operator or comment.
   */
  datatype Category = Identifier | Value | Reserved | Symbol | Operator | Commentary

  function CategoryOf(k: TokenType): Category
  {
    match k
    case I_ID => Identifier
    case V_NUM_INT => Value
    case V_NUM_FLOAT => Value
    case V_STRING => Value
    case R_VOID => Reserved
    case R_MAIN => Reserved
    case R_IF => Reserved
    case R_ELSE => Reserved
    case R_FOR => Reserved
    case R_WHILE => Reserved
    case R_INT => Reserved
    case R_FLOAT => Reserved
    case R_CHAR => Reserved
    case R_SCANF => Reserved
    case R_PRINT => Reserved
    case R_RETURN => Reserved
    case S_OPEN_PARENTHESIS => Symbol
    case S_CLOSE_PARENTHESIS => Symbol
    case S_OPEN_SQUARE_BRACKETS => Symbol
    case S_CLOSE_SQUARE_BRACKETS => Symbol
    case S_OPEN_CURLY_BRACKETS => Symbol
    case S_CLOSE_CURLY_BRACKETS => Symbol
    case S_ATTRIBUTION => Symbol
    case S_COMMA => Symbol
    case S_SEMICOLON => Symbol
    case S_DOT => Symbol
    case O_EQUAL => Operator
    case O_ADD => Operator
    case O_SUBTRACT => Operator
    case O_MULTIPLY => Operator
    case O_DIVIDE => Operator
    case O_MOD => Operator
    case O_LESS => Operator
    case O_LESS_EQUAL => Operator
    case O_GREATER => Operator
    case O_GREATER_EQUAL => Operator
    case O_INCREMENT => Operator
    case O_DECREMENT => Operator
    case C_LINE_COMMENT => Commentary
    case C_BLOCK_COMMENT => Commentary
  }

  /** The letter a group's enumerators start with. */
  function CategoryLetter(c: Category): char
  {
    match c
    case Identifier => 'I'
    case Value => 'V'
    case Reserved => 'R'
    case Symbol => 'S'
    case Operator => 'O'
    case Commentary => 'C'
  }

  /**
   * `getTokenTypeAsString`: one case per token type, none left over. The
   * cases are grouped as the enum is; every name starts with its group's
   * letter and an underscore.
   */
  function TokenTypeName(k: TokenType): (name: string)
    ensures |name| >= 3 && name[0] == CategoryLetter(CategoryOf(k)) && name[1] == '_'
  {
    match CategoryOf(k)
    case Identifier => IdentifierName(k)
    case Value => ValueName(k)
    case Reserved => ReservedName(k)
    case Symbol => SymbolName(k)
    case Operator => OperatorName(k)
    case Commentary => CommentaryName(k)
  }

  function IdentifierName(k: TokenType): (name: string)
    requires CategoryOf(k) == Identifier
    ensures |name| >= 3 && name[0] == 'I' && name[1] == '_'
  {
    match k
    case I_ID => "I_ID"
  }

  function ValueName(k: TokenType): (name: string)
    requires CategoryOf(k) == Value
    ensures |name| >= 3 && name[0] == 'V' && name[1] == '_'
  {
    match k
    case V_NUM_INT => "V_NUM_INT"
    case V_NUM_FLOAT => "V_NUM_FLOAT"
    case V_STRING => "V_STRING"
  }

  function ReservedName(k: TokenType): (name: string)
    requires CategoryOf(k) == Reserved
    ensures |name| >= 3 && name[0] == 'R' && name[1] == '_'
  {
    match k
    case R_VOID => "R_VOID"
    case R_MAIN => "R_MAIN"
    case R_IF => "R_IF"
    case R_ELSE => "R_ELSE"
    case R_FOR => "R_FOR"
    case R_WHILE => "R_WHILE"
    case R_INT => "R_INT"
    case R_FLOAT => "R_FLOAT"
    case R_CHAR => "R_CHAR"
    case R_SCANF => "R_SCANF"
    case R_PRINT => "R_PRINT"
    case R_RETURN => "R_RETURN"
  }

  function SymbolName(k: TokenType): (name: string)
    requires CategoryOf(k) == Symbol
    ensures |name| >= 3 && name[0] == 'S' && name[1] == '_'
  {
    match k
    case S_OPEN_PARENTHESIS => "S_OPEN_PARENTHESIS"
    case S_CLOSE_PARENTHESIS => "S_CLOSE_PARENTHESIS"
    case S_OPEN_SQUARE_BRACKETS => "S_OPEN_SQUARE_BRACKETS"
    case S_CLOSE_SQUARE_BRACKETS => "S_CLOSE_SQUARE_BRACKETS"
    case S_OPEN_CURLY_BRACKETS => "S_OPEN_CURLY_BRACKETS"
    case S_CLOSE_CURLY_BRACKETS => "S_CLOSE_CURLY_BRACKETS"
    case S_ATTRIBUTION => "S_ATTRIBUTION"
    case S_COMMA => "S_COMMA"
    case S_SEMICOLON => "S_SEMICOLON"
    case S_DOT => "S_DOT"
  }

  function OperatorName(k: TokenType): (name: string)
    requires CategoryOf(k) == Operator
    ensures |name| >= 3 && name[0] == 'O' && name[1] == '_'
  {
    match k
    case O_EQUAL => "O_EQUAL"
    case O_ADD => "O_ADD"
    case O_SUBTRACT => "O_SUBTRACT"
    case O_MULTIPLY => "O_MULTIPLY"
    case O_DIVIDE => "O_DIVIDE"
    case O_MOD => "O_MOD"
    case O_LESS => "O_LESS"
    case O_LESS_EQUAL => "O_LESS_EQUAL"
    case O_GREATER => "O_GREATER"
    case O_GREATER_EQUAL => "O_GREATER_EQUAL"
    case O_INCREMENT => "O_INCREMENT"
    case O_DECREMENT => "O_DECREMENT"
  }

  function CommentaryName(k: TokenType): (name: string)
    requires CategoryOf(k) == Commentary
    ensures |name| >= 3 && name[0] == 'C' && name[1] == '_'
  {
    match k
    case C_LINE_COMMENT => "C_LINE_COMMENT"
    case C_BLOCK_COMMENT => "C_BLOCK_COMMENT"
  }

  /** Upper-case letters and underscores only, the spelling of a C enumerator. */
  predicate IsEnumName(s: string)
  {
    forall i :: 0 <= i < |s| ==> ('A' <= s[i] <= 'Z') || s[i] == '_'
  }

  /**
   * Reading a token type's name back: the group letter and the underscore
   * after it select the names to compare with.
   */
  function TokenTypeOf(s: string): Option<TokenType>
  {
    if |s| < 2 || s[1] != '_' then None
    else match s[0]
      case 'I' => IdentifierOf(s)
      case 'V' => ValueOf(s)
      case 'R' => ReservedOf(s)
      case 'S' => SymbolOf(s)
      case 'O' => OperatorOf(s)
      case 'C' => CommentaryOf(s)
      case _ => None
  }

  function IdentifierOf(s: string): Option<TokenType>
  {
    if s == "I_ID" then Some(I_ID)
    else None
  }

  function ValueOf(s: string): Option<TokenType>
  {
    if s == "V_NUM_INT" then Some(V_NUM_INT)
    else if s == "V_NUM_FLOAT" then Some(V_NUM_FLOAT)
    else if s == "V_STRING" then Some(V_STRING)
    else None
  }

  function ReservedOf(s: string): Option<TokenType>
  {
    if s == "R_VOID" then Some(R_VOID)
    else if s == "R_MAIN" then Some(R_MAIN)
    else if s == "R_IF" then Some(R_IF)
    else if s == "R_ELSE" then Some(R_ELSE)
    else if s == "R_FOR" then Some(R_FOR)
    else if s == "R_WHILE" then Some(R_WHILE)
    else if s == "R_INT" then Some(R_INT)
    else if s == "R_FLOAT" then Some(R_FLOAT)
    else if s == "R_CHAR" then Some(R_CHAR)
    else if s == "R_SCANF" then Some(R_SCANF)
    else if s == "R_PRINT" then Some(R_PRINT)
    else if s == "R_RETURN" then Some(R_RETURN)
    else None
  }

  function SymbolOf(s: string): Option<TokenType>
  {
    if s == "S_OPEN_PARENTHESIS" then Some(S_OPEN_PARENTHESIS)
    else if s == "S_CLOSE_PARENTHESIS" then Some(S_CLOSE_PARENTHESIS)
    else if s == "S_OPEN_SQUARE_BRACKETS" then Some(S_OPEN_SQUARE_BRACKETS)
    else if s == "S_CLOSE_SQUARE_BRACKETS" then Some(S_CLOSE_SQUARE_BRACKETS)
    else if s == "S_OPEN_CURLY_BRACKETS" then Some(S_OPEN_CURLY_BRACKETS)
    else if s == "S_CLOSE_CURLY_BRACKETS" then Some(S_CLOSE_CURLY_BRACKETS)
    else if s == "S_ATTRIBUTION" then Some(S_ATTRIBUTION)
    else if s == "S_COMMA" then Some(S_COMMA)
    else if s == "S_SEMICOLON" then Some(S_SEMICOLON)
    else if s == "S_DOT" then Some(S_DOT)
    else None
  }

  function OperatorOf(s: string): Option<TokenType>
  {
    if s == "O_EQUAL" then Some(O_EQUAL)
    else if s == "O_ADD" then Some(O_ADD)
    else if s == "O_SUBTRACT" then Some(O_SUBTRACT)
    else if s == "O_MULTIPLY" then Some(O_MULTIPLY)
    else if s == "O_DIVIDE" then Some(O_DIVIDE)
    else if s == "O_MOD" then Some(O_MOD)
    else if s == "O_LESS" then Some(O_LESS)
    else if s == "O_LESS_EQUAL" then Some(O_LESS_EQUAL)
    else if s == "O_GREATER" then Some(O_GREATER)
    else if s == "O_GREATER_EQUAL" then Some(O_GREATER_EQUAL)
    else if s == "O_INCREMENT" then Some(O_INCREMENT)
    else if s == "O_DECREMENT" then Some(O_DECREMENT)
    else None
  }

  function CommentaryOf(s: string): Option<TokenType>
  {
    if s == "C_LINE_COMMENT" then Some(C_LINE_COMMENT)
    else if s == "C_BLOCK_COMMENT" then Some(C_BLOCK_COMMENT)
    else None
  }

  // One group of names per lemma: comparing many string literals in one proof is costly.
  lemma IdentifierNamesReadBack(k: TokenType)
    requires CategoryOf(k) == Identifier
    ensures TokenTypeOf(TokenTypeName(k)) == Some(k)
  {
  }

  lemma IdentifierNamesSpelling(k: TokenType)
    requires CategoryOf(k) == Identifier
    ensures IsEnumName(TokenTypeName(k))
  {
  }

  lemma ValueNamesReadBack(k: TokenType)
    requires CategoryOf(k) == Value
    ensures TokenTypeOf(TokenTypeName(k)) == Some(k)
  {
  }

  lemma ValueNamesSpelling(k: TokenType)
    requires CategoryOf(k) == Value
    ensures IsEnumName(TokenTypeName(k))
  {
  }

  lemma ReservedNamesReadBack(k: TokenType)
    requires CategoryOf(k) == Reserved
    ensures TokenTypeOf(TokenTypeName(k)) == Some(k)
  {
  }

  lemma ReservedNamesSpelling(k: TokenType)
    requires CategoryOf(k) == Reserved
    ensures IsEnumName(TokenTypeName(k))
  {
  }

  lemma SymbolNamesReadBack(k: TokenType)
    requires CategoryOf(k) == Symbol
    ensures TokenTypeOf(TokenTypeName(k)) == Some(k)
  {
  }

  lemma BracketNamesSpelling(k: TokenType)
    requires k.S_OPEN_PARENTHESIS? || k.S_CLOSE_PARENTHESIS? || k.S_OPEN_SQUARE_BRACKETS?
    ensures IsEnumName(TokenTypeName(k))
  {
  }

  lemma CurlyNamesSpelling(k: TokenType)
    requires k.S_CLOSE_SQUARE_BRACKETS? || k.S_OPEN_CURLY_BRACKETS? || k.S_CLOSE_CURLY_BRACKETS?
    ensures IsEnumName(TokenTypeName(k))
  {
  }

  lemma SymbolNamesSpelling(k: TokenType)
    requires CategoryOf(k) == Symbol
    ensures IsEnumName(TokenTypeName(k))
  {
    if k.S_OPEN_PARENTHESIS? || k.S_CLOSE_PARENTHESIS? || k.S_OPEN_SQUARE_BRACKETS? {
      BracketNamesSpelling(k);
    } else if k.S_CLOSE_SQUARE_BRACKETS? || k.S_OPEN_CURLY_BRACKETS? || k.S_CLOSE_CURLY_BRACKETS? {
      CurlyNamesSpelling(k);
    }
  }

  lemma OperatorNamesReadBack(k: TokenType)
    requires CategoryOf(k) == Operator
    ensures TokenTypeOf(TokenTypeName(k)) == Some(k)
  {
  }

  lemma OperatorNamesSpelling(k: TokenType)
    requires CategoryOf(k) == Operator
    ensures IsEnumName(TokenTypeName(k))
  {
  }

  lemma CommentaryNamesReadBack(k: TokenType)
    requires CategoryOf(k) == Commentary
    ensures TokenTypeOf(TokenTypeName(k)) == Some(k)
  {
  }

  lemma CommentaryNamesSpelling(k: TokenType)
    requires CategoryOf(k) == Commentary
    ensures IsEnumName(TokenTypeName(k))
  {
  }

  /**
   * Every token type's name is a C identifier in capitals, and reading it
   * back gives that token type again.
   */
  lemma TokenTypeNameRoundTrip(k: TokenType)
    ensures IsEnumName(TokenTypeName(k))
    ensures TokenTypeOf(TokenTypeName(k)) == Some(k)
  {
    match CategoryOf(k)
    case Identifier => IdentifierNamesReadBack(k); IdentifierNamesSpelling(k);
    case Value => ValueNamesReadBack(k); ValueNamesSpelling(k);
    case Reserved => ReservedNamesReadBack(k); ReservedNamesSpelling(k);
    case Symbol => SymbolNamesReadBack(k); SymbolNamesSpelling(k);
    case Operator => OperatorNamesReadBack(k); OperatorNamesSpelling(k);
    case Commentary => CommentaryNamesReadBack(k); CommentaryNamesSpelling(k);
  }

  /** Distinct token types have distinct names. */
  lemma TokenTypeNameInjective(a: TokenType, b: TokenType)
    requires TokenTypeName(a) == TokenTypeName(b)
    ensures a == b
  {
    TokenTypeNameRoundTrip(a);
    TokenTypeNameRoundTrip(b);
  }
  // ---------------------------------------------------------------------------
  // Tokens and their JSON objects
  // ---------------------------------------------------------------------------

  datatype Position = Position(line: int, column: int)

  datatype Location = Location(start: Position, end: Position)

  /**
   * A token. Its attribute is a C union, seen here both ways: the `int`
   * member, and the text `%f` makes of the `double` member, which the model
   * takes as given.
   */
  datatype Token = Token(kind: TokenType, location: Location, intAttr: int, floatText: CString)

  /** The literal pieces of the token object's format string, between its six conversions. */
  const TOKEN_TEMPLATE: seq<string> := [
    "{\"type\": \"",
    "\",\"location\": {\"start\": {\"line\": ",
    ",\"column\": ",
    "},\"end\": {\"line\": ",
    ",\"column\": ",
    "}},\"attr\": ",
    "}"
  ]

  lemma TemplateShape()
    ensures |TOKEN_TEMPLATE| == 7
    ensures TOKEN_TEMPLATE[0][0] == '{' && TOKEN_TEMPLATE[6] == "}"
    ensures TOKEN_TEMPLATE[1][0] == '"' && TOKEN_TEMPLATE[2][0] == ',' && TOKEN_TEMPLATE[3][0] == '}'
    ensures TOKEN_TEMPLATE[4][0] == ',' && TOKEN_TEMPLATE[5][0] == '}'
  {
  }

  lemma TemplateIsCString()
    ensures forall i :: 0 <= i < |TOKEN_TEMPLATE| ==> '\0' !in TOKEN_TEMPLATE[i]
  {
  }

  /** The attribute's text: `%f` of the float member for float numbers, `%d` of the int member otherwise. */
  function AttrText(t: Token): (text: string)
    ensures t.kind == V_NUM_FLOAT ==> text == t.floatText
  {
    if t.kind == V_NUM_FLOAT then t.floatText else IntToDecimal(t.intAttr)
  }

  /** The texts of the six conversions: type name, start line and column, end line and column, attribute. */
  function TokenFields(t: Token): (fields: seq<string>)
    ensures |fields| == 6 && fields[0] == TokenTypeName(t.kind) && fields[5] == AttrText(t)
  {
    [ TokenTypeName(t.kind),
      IntToDecimal(t.location.start.line), IntToDecimal(t.location.start.column),
      IntToDecimal(t.location.end.line), IntToDecimal(t.location.end.column),
      AttrText(t) ]
  }

  /**
   * Each conversion's text reads back on its own: the type name as the token
   * type, the four numerals as the start and end positions, and the
   * attribute as `INT_ATTR` for every type but float numbers, whose `%f`
   * text is the float member's.
   */
  lemma TokenFieldsReadBack(t: Token)
    ensures var f := TokenFields(t);
            |f| == 6 && TokenTypeOf(f[0]) == Some(t.kind)
    ensures var f := TokenFields(t);
            ParseInt(f[1]) == Some(t.location.start.line) && ParseInt(f[2]) == Some(t.location.start.column)
    ensures var f := TokenFields(t);
            ParseInt(f[3]) == Some(t.location.end.line) && ParseInt(f[4]) == Some(t.location.end.column)
    ensures t.kind == V_NUM_FLOAT ==> TokenFields(t)[5] == t.floatText
    ensures t.kind != V_NUM_FLOAT ==> ParseInt(TokenFields(t)[5]) == Some(t.intAttr)
  {
    NameFieldReadBack(t);
    PositionFieldsReadBack(t);
    AttrFieldReadBack(t);
  }

  lemma NameFieldReadBack(t: Token)
    ensures |TokenFields(t)| == 6 && TokenTypeOf(TokenFields(t)[0]) == Some(t.kind)
  {
    TokenTypeNameRoundTrip(t.kind);
  }

  lemma PositionFieldsReadBack(t: Token)
    ensures var f := TokenFields(t);
            ParseInt(f[1]) == Some(t.location.start.line) && ParseInt(f[2]) == Some(t.location.start.column)
    ensures var f := TokenFields(t);
            ParseInt(f[3]) == Some(t.location.end.line) && ParseInt(f[4]) == Some(t.location.end.column)
  {
    ParseIntRoundTrip(t.location.start.line);
    ParseIntRoundTrip(t.location.start.column);
    ParseIntRoundTrip(t.location.end.line);
    ParseIntRoundTrip(t.location.end.column);
  }

  lemma AttrFieldReadBack(t: Token)
    ensures t.kind == V_NUM_FLOAT ==> TokenFields(t)[5] == t.floatText
    ensures t.kind != V_NUM_FLOAT ==> ParseInt(TokenFields(t)[5]) == Some(t.intAttr)
  {
    ParseIntRoundTrip(t.intAttr);
  }

  lemma FieldsAreCStrings(t: Token)
    ensures forall i :: 0 <= i < 6 ==> '\0' !in TokenFields(t)[i]
  {
    var f := TokenFields(t);
    TokenTypeNameRoundTrip(t.kind);
    assert '\0' !in f[0];
    NumeralStops(t.location.start.line);
    NumeralStops(t.location.start.column);
    NumeralStops(t.location.end.line);
    NumeralStops(t.location.end.column);
    NumeralStops(t.intAttr);
    forall i | 0 <= i < 6
      ensures '\0' !in f[i]
    {
    }
  }

  /** The object `sprintf` writes into `buff` for token `t`. */
  function TokenJson(t: Token): CString
  {
    TemplateIsCString();
    FieldsAreCStrings(t);
    FormatExcludes(TOKEN_TEMPLATE, TokenFields(t), '\0');
    Format(TOKEN_TEMPLATE, TokenFields(t))
  }

  datatype Attribute = IntAttr(value: int) | FloatAttr(text: string)

  /** What a token object tells a client: type, location and attribute. */
  datatype TokenObject = TokenObject(kind: TokenType, location: Location, attr: Attribute)

  /** The object's content for a token: its attribute in the member its type selects. */
  function Shown(t: Token): TokenObject
  {
    TokenObject(t.kind, t.location, if t.kind == V_NUM_FLOAT then FloatAttr(t.floatText) else IntAttr(t.intAttr))
  }

  /** A client's reading of one token object. */
  function DecodeToken(s: string): Option<TokenObject>
  {
    var fields := Unformat(TOKEN_TEMPLATE, s);
    if fields.None? then None
    else
      var f := fields.value;
      var kind := TokenTypeOf(f[0]);
      var startLine, startColumn := ParseInt(f[1]), ParseInt(f[2]);
      var endLine, endColumn := ParseInt(f[3]), ParseInt(f[4]);
      if kind.None? || startLine.None? || startColumn.None? || endLine.None? || endColumn.None? then None
      else
        var location := Location(Position(startLine.value, startColumn.value), Position(endLine.value, endColumn.value));
        if kind.value == V_NUM_FLOAT then Some(TokenObject(kind.value, location, FloatAttr(f[5])))
        else
          var attr := ParseInt(f[5]);
          if attr.None? then None else Some(TokenObject(kind.value, location, IntAttr(attr.value)))
  }

  /** A `%d` numeral holds neither of the characters that end the conversions after it. */
  lemma NumeralStops(i: int)
    ensures ',' !in IntToDecimal(i) && '}' !in IntToDecimal(i) && '\0' !in IntToDecimal(i)
  {
    ParseIntRoundTrip(i);
  }

  /** Each conversion's text stops short of the first character of the literal after it. */
  lemma FieldsSeparable(t: Token)
    requires '}' !in t.floatText
    ensures Separable(TOKEN_TEMPLATE, TokenFields(t))
  {
    var f := TokenFields(t);
    TemplateShape();
    TokenTypeNameRoundTrip(t.kind);
    assert '"' !in f[0];
    NumeralStops(t.location.start.line);
    NumeralStops(t.location.start.column);
    NumeralStops(t.location.end.line);
    NumeralStops(t.location.end.column);
    NumeralStops(t.intAttr);
    assert '}' !in f[5];
    forall i | 1 <= i < 7
      ensures |TOKEN_TEMPLATE[i]| > 0 && TOKEN_TEMPLATE[i][0] !in f[i - 1]
    {
    }
  }

  /**
   * A token's object reads back as its type name, its start line and column
   * and end line and column in that order, and its attribute: the `%d` value
   * for every type but float numbers.
   */
  lemma TokenJsonRoundTrip(t: Token)
    requires '}' !in t.floatText
    ensures DecodeToken(TokenJson(t)) == Some(Shown(t))
  {
    var f := TokenFields(t);
    FieldsSeparable(t);
    FormatRoundTrip(TOKEN_TEMPLATE, f);
    TokenFieldsReadBack(t);
  }

  /** A token's object opens with '{' and closes with '}'. */
  lemma TokenJsonBraces(t: Token)
    ensures |TokenJson(t)| >= 2
    ensures TokenJson(t)[0] == '{' && TokenJson(t)[|TokenJson(t)| - 1] == '}'
  {
    TemplateShape();
    var f := TokenFields(t);
    FormatEnds(TOKEN_TEMPLATE, f);
    var s := Format(TOKEN_TEMPLATE, f);
    assert s == TOKEN_TEMPLATE[0] + f[0] + Format(TOKEN_TEMPLATE[1..], f[1..]);
  }

  // ---------------------------------------------------------------------------
  // The `/lexer` route
  // ---------------------------------------------------------------------------

  /** The objects of a token stream, in stream order. */
  function TokenObjects(tokens: seq<Token>): (objects: seq<CString>)
    ensures |objects| == |tokens|
    ensures forall i :: 0 <= i < |tokens| ==> objects[i] == TokenJson(tokens[i])
  {
    seq(|tokens|, i requires 0 <= i < |tokens| => TokenJson(tokens[i]))
  }

  const OPEN_BRACKET: CString := "["
  const COMMA: CString := ","
  const CLOSE_BRACKET: CString := "]"

  /** The items with a comma between each two. */
  function Join(items: seq<string>): string
  {
    if |items| == 0 then ""
    else if |items| == 1 then items[0]
    else Join(items[..|items| - 1]) + "," + items[|items| - 1]
  }

  /** A JSON array of the given texts. */
  function JsonArray(items: seq<string>): string
  {
    "[" + Join(items) + "]"
  }

  /**
   * The chunks the route's loop appends for the first `n` objects: each
   * object, with a comma after it while another object follows.
   */
  function Separated(objects: seq<CString>, n: nat): seq<CString>
    requires n <= |objects|
  {
    if n == 0 then []
    else Separated(objects, n - 1) + [objects[n - 1]] + (if n < |objects| then [COMMA] else [])
  }

  lemma SeparatedStep(objects: seq<CString>, n: nat, before: seq<CString>, after: seq<CString>)
    requires 0 < n <= |objects|
    requires before == [OPEN_BRACKET] + Separated(objects, n - 1)
    requires after == before + [objects[n - 1]] + (if n < |objects| then [COMMA] else [])
    ensures after == [OPEN_BRACKET] + Separated(objects, n)
  {
  }

  /** Everything the route appends: "[", the separated objects, "]". */
  function RouteChunks(objects: seq<CString>): seq<CString>
  {
    [OPEN_BRACKET] + Separated(objects, |objects|) + [CLOSE_BRACKET]
  }

  lemma {:induction false} SeparatedLayout(objects: seq<CString>, n: nat)
    requires n <= |objects|
    ensures |Separated(objects, n)| == (if n == 0 then 0 else if n < |objects| then 2 * n else 2 * n - 1)
    ensures forall k :: 0 <= k < n ==> Separated(objects, n)[2 * k] == objects[k]
    ensures forall k :: 0 <= k < n && k + 1 < |objects| ==> Separated(objects, n)[2 * k + 1] == ","
  {
    if n > 0 {
      SeparatedLayout(objects, n - 1);
    }
  }

  /**
   * The route's chunks are "[", then the objects at the odd places with a
   * comma between each two, then "]": no comma after the last object.
   */
  lemma RouteChunksLayout(objects: seq<CString>)
    ensures var c := RouteChunks(objects);
            && |c| == (if |objects| == 0 then 2 else 2 * |objects| + 1)
            && c[0] == "[" && c[|c| - 1] == "]"
            && (forall k :: 0 <= k < |objects| ==> c[2 * k + 1] == objects[k])
            && (forall k :: 0 <= k < |objects| - 1 ==> c[2 * k + 2] == ",")
  {
    SeparatedLayout(objects, |objects|);
  }

  lemma SeparatedText(objects: seq<CString>, n: nat)
    requires 0 < n <= |objects|
    ensures Concat(Separated(objects, n)) ==
            Concat(Separated(objects, n - 1)) + objects[n - 1] + (if n < |objects| then "," else "")
  {
    var before := Separated(objects, n - 1);
    ConcatSnoc(before, objects[n - 1]);
    if n < |objects| {
      ConcatSnoc(before + [objects[n - 1]], COMMA);
    } else {
      assert Separated(objects, n) == before + [objects[n - 1]];
    }
  }

  lemma JoinPrefix(items: seq<string>, n: nat)
    requires 0 < n <= |items|
    ensures Join(items[..n]) == if n == 1 then items[0] else Join(items[..n - 1]) + "," + items[n - 1]
  {
    assert items[..n][..n - 1] == items[..n - 1];
  }

  lemma {:induction false} SeparatedConcat(objects: seq<CString>, n: nat)
    requires n <= |objects|
    ensures Concat(Separated(objects, n)) == Join(objects[..n]) + (if 0 < n < |objects| then "," else "")
  {
    if n > 0 {
      SeparatedConcat(objects, n - 1);
      SeparatedText(objects, n);
      JoinPrefix(objects, n);
    }
  }

  /** The chunks join to the JSON array of the objects. */
  lemma RouteBody(objects: seq<CString>)
    ensures Concat(RouteChunks(objects)) == JsonArray(objects)
  {
    SeparatedConcat(objects, |objects|);
    assert objects[..|objects|] == objects;
    ConcatFramed("[", Separated(objects, |objects|), "]");
  }

  /** An empty stream gives the empty array. */
  lemma EmptyStreamBody()
    ensures Concat(RouteChunks(TokenObjects([]))) == "[]"
  {
    RouteBody([]);
  }

  lemma {:induction false} JoinEnds(items: seq<string>)
    requires |items| > 0
    ensures var j := Join(items); var last := items[|items| - 1];
            |j| >= |last| && j[|j| - |last|..] == last
  {
    if |items| > 1 {
      JoinEnds(items[..|items| - 1]);
    }
  }

  /** An array whose last item closes with '}' ends with "}]". */
  lemma JsonArrayEnds(items: seq<string>, last: string)
    requires |items| > 0 && items[|items| - 1] == last && |last| > 0 && last[|last| - 1] == '}'
    ensures var body := JsonArray(items);
            |body| >= 3 && body[|body| - 2] == '}' && body[|body| - 1] == ']'
  {
    JoinEnds(items);
    var j := Join(items);
    assert j[|j| - 1] == last[|last| - 1];
    var body := JsonArray(items);
    assert body == "[" + j + "]";
    assert body[|body| - 2] == j[|j| - 1];
  }

  /** The body of a non-empty stream closes its last object and then the array: no trailing comma. */
  lemma NoTrailingComma(tokens: seq<Token>)
    requires |tokens| > 0
    ensures var body := JsonArray(TokenObjects(tokens));
            |body| >= 3 && body[|body| - 2] == '}' && body[|body| - 1] == ']'
  {
    var last := TokenJson(tokens[|tokens| - 1]);
    TokenJsonBraces(tokens[|tokens| - 1]);
    JsonArrayEnds(TokenObjects(tokens), last);
  }

  /** The response the route's callback returns for a stream of tokens. */
  function LexerAnswer(tokens: seq<Token>): Response
  {
    Response(200, TypeJson, RouteChunks(TokenObjects(tokens)))
  }

  /** One pass of the route's loop: an object, then a comma when the lexer has more tokens. */
  method AppendObject(rc: Creator, buff: CString, more: bool)
    requires rc.Valid()
    modifies rc
    ensures rc.Valid()
    ensures rc.statusCode == old(rc.statusCode) && rc.contentType == old(rc.contentType)
    ensures rc.chunks == old(rc.chunks) + [buff] + (if more then [COMMA] else [])
  {
    rc.AppendContent(buff);
    if more {
      rc.AppendContent(COMMA);
    }
  }

  /**
   * The `/lexer` callback, for the stream `tokens` the lexer yields on the
   * request's content: a 200 JSON creator holding "[", each token's object
   * with a comma after it while the lexer has more, and "]".
   */
  method LexerRoute(tokens: seq<Token>) returns (rc: Creator)
    ensures fresh(rc) && rc.Valid()
    ensures rc.State() == LexerAnswer(tokens)
  {
    ghost var objects := TokenObjects(tokens);
    rc := new Creator(TypeJson, 200);
    rc.AppendContent(OPEN_BRACKET);
    var i := 0;
    while i < |tokens|
      invariant 0 <= i <= |tokens|
      invariant fresh(rc) && rc.Valid()
      invariant rc.statusCode == 200 && rc.contentType == TypeJson
      invariant rc.chunks == [OPEN_BRACKET] + Separated(objects, i)
    {
      var buff := TokenJson(tokens[i]);
      ghost var before := rc.chunks;
      AppendObject(rc, buff, i + 1 < |tokens|);
      assert buff == objects[i];
      SeparatedStep(objects, i + 1, before, rc.chunks);
      i := i + 1;
    }
    rc.AppendContent(CLOSE_BRACKET);
  }

  /** The route answers 200, and the content a client reads is the JSON array of the tokens' objects. */
  lemma LexerResponse(tokens: seq<Token>)
    ensures Find(CStr(Render(LexerAnswer(tokens))), BLANK_LINE).Some?
    ensures StatusCodeOf(Render(LexerAnswer(tokens))) == Some(200)
    ensures Server.RequestContent(Render(LexerAnswer(tokens))) == JsonArray(TokenObjects(tokens)) + CRLF
  {
    StatusCodeRoundTrip(LexerAnswer(tokens));
    Server.ContentOfRenderedResponse(LexerAnswer(tokens));
    RouteBody(TokenObjects(tokens));
  }
}
