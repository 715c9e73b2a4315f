// parser/errors.go: the parser's error messages, and the translation of
// token kinds into the spelling a user writes.
module ParseErrors {
  import opened Wrappers
  import opened GoLexer

  const ErrMissingIdentifier := "хувьсагчийн нэр заавал заагдах ёстой"
  const ErrMissingBraceOpen := "'{' хаалт шаардлагатай"
  const ErrMissingBraceClose := "'}' хаалт шаардлагатай"
  const ErrMissingSemicolon := "';' тэмдэгт шаардлагатай"
  const ErrMissingIs := "'бо' гэсэн тэмдэгт шаардлагатай"
  const ErrMissingColon := "':' тэмдэгт шаардлагатай"
  const ErrMissingParenOpen := "'(' хаалт шаардлагатай"
  const ErrMissingParenClose := "')' хаалт шаардлагатай"
  const ErrMissingArrow := "'->' тэмдэгт шаардлагатай"
  const ErrMissingIntType := "'тоо' төрөл шаардлагатай"

  /** tokenTranslations (parser/errors.go:30-60); `lexer.DECL` is the
      kind `VAR_DECL`. */
  function Translation(t: TokenType): Option<string>
  {
    match t
    case IS => Some("бол") case IDENT => Some("") case NUMBER => Some("тоо")
    case PLUS => Some("+") case MINUS => Some("-") case MUL => Some("*") case DIV => Some("/")
    case LOGICAND => Some("&&") case LOGICOR => Some("||") case ASSIGN => Some("=")
    case EQUALTO => Some("==") case NOTEQUAL => Some("!=")
    case LESSTHAN => Some("<") case LESSTHANEQUAL => Some("<=")
    case GREATERTHAN => Some(">") case GREATERTHANEQUAL => Some(">=")
    case QUESTIONMARK => Some("?") case COLON => Some(":") case SEMICOLON => Some(";")
    case OPEN_BRACE => Some("{") case CLOSE_BRACE => Some("}")
    case OPEN_PAREN => Some("(") case CLOSE_PAREN => Some(")")
    case RIGHT_ARROW => Some("->") case INT_TYPE => Some("тоо")
    case IF => Some("хэрэв") case IFNOT => Some("бол") case RETURN => Some("буц")
    case VAR_DECL => Some("зарла")
    case _ => None
  }

  /** getTokenTranslation (parser/errors.go:77-82): the table's text when
      the kind is listed, the kind's own name otherwise. */
  function TokenTranslation(t: TokenType): string
  {
    if Translation(t).Some? then Translation(t).value else TypeName(t)
  }

  /** Only an identifier, and the empty kind of a scan error, translate to
      the empty text. */
  lemma TranslationEmpty(t: TokenType)
    ensures TokenTranslation(t) == "" <==> t == IDENT || t == NONE
  {
    if Translation(t).Some? {
      ListedNonEmpty(t);
    } else {
      NameNonEmpty(t);
    }
  }

  lemma ListedNonEmpty(t: TokenType)
    requires Translation(t).Some?
    ensures Translation(t).value == "" <==> t == IDENT
  {
  }

  lemma NameNonEmpty(t: TokenType)
    ensures |TypeName(t)| == 0 <==> t == NONE
  {
  }

  /** A message template with one `%s`, split at it. */
  datatype Template = Template(before: string, after: string)

  const ErrExpectedNextToken := Template("дараагийн тэмдэгт '", "' байх ёстой, та бичиглэлээ шалгана уу")
  const ErrUnknownExpression := Template("илэрхийллийн төрөл тодорхойгүй байна: '", "'")
  const ErrUnknownBinOp := Template("үл мэдэгдэх үйлдлийн тэмдэгт: '", "'")

  /** formatError (parser/errors.go:85-87): Sprintf of the template with
      one string argument. */
  function Format(f: Template, arg: string): (s: string)
    ensures |s| == |f.before| + |arg| + |f.after|
  {
    f.before + arg + f.after
  }

  /** The argument can be read back out of the formatted message. */
  lemma FormatRecovers(f: Template, arg: string)
    ensures Format(f, arg)[|f.before|..|Format(f, arg)| - |f.after|] == arg
  {
    var s := Format(f, arg);
    assert s == f.before + (arg + f.after);
    assert s[|f.before|..] == arg + f.after;
  }

  /** formatExpectedNextToken (parser/errors.go:63-66). */
  function FormatExpectedNextToken(t: TokenType): string
  {
    Format(ErrExpectedNextToken, TokenTranslation(t))
  }

  /** formatUnknownExpression (parser/errors.go:68-70). */
  function FormatUnknownExpression(t: TokenType): string
  {
    Format(ErrUnknownExpression, TokenTranslation(t))
  }

  /** formatUnknownBinOp (parser/errors.go:72-74). */
  function FormatUnknownBinOp(t: TokenType): string
  {
    Format(ErrUnknownBinOp, TokenTranslation(t))
  }

  /** Two expected-token messages are equal exactly when the kinds
      translate alike; `бол` stands for both IS and IFNOT, and `тоо` for
      both NUMBER and INT_TYPE. */
  lemma ExpectedMessageDetermines(a: TokenType, b: TokenType)
    ensures FormatExpectedNextToken(a) == FormatExpectedNextToken(b) <==> TokenTranslation(a) == TokenTranslation(b)
    ensures TokenTranslation(IS) == TokenTranslation(IFNOT) && TokenTranslation(NUMBER) == TokenTranslation(INT_TYPE)
  {
    FormatInjective(ErrExpectedNextToken, TokenTranslation(a), TokenTranslation(b));
    SharedSpellings();
  }

  /** A template filled with two arguments gives the same text exactly when
      the arguments are the same. */
  lemma FormatInjective(f: Template, x: string, y: string)
    ensures Format(f, x) == Format(f, y) <==> x == y
  {
    FormatRecovers(f, x);
    FormatRecovers(f, y);
  }

  lemma SharedSpellings()
    ensures TokenTranslation(IS) == TokenTranslation(IFNOT) && TokenTranslation(NUMBER) == TokenTranslation(INT_TYPE)
  {
  }
}
