/**
 * The statements that create roles, users and databases, and the quoting they rest
 * on, against lexers for the two dialects: PostgreSQL with standard-conforming
 * strings (PostgreSQL manual, section 4.1) and MySQL with backslash escapes (MySQL
 * manual, sections 9.1.1 and 9.2).
 */
module Quoting {
  import opened Wrappers

  // === Quoting ===============================================================

  // strings.ReplaceAll for a one-character needle.
  function ReplaceAll(s: string, c: char, with: string): string {
    if s == "" then "" else (if s[0] == c then with else [s[0]]) + ReplaceAll(s[1..], c, with)
  }

  function PgQuoteIdent(s: string): string {
    "\"" + ReplaceAll(s, '"', "\"\"") + "\""
  }

  function PgQuoteLiteral(s: string): string {
    "'" + ReplaceAll(s, '\'', "''") + "'"
  }

  function MySQLQuoteIdent(s: string): string {
    "`" + ReplaceAll(s, '`', "``") + "`"
  }

  function MySQLQuoteString(s: string): string {
    "'" + ReplaceAll(ReplaceAll(s, '\\', "\\\\"), '\'', "''") + "'"
  }

  function MySQLQuoteAccount(user: string): string {
    MySQLQuoteString(user) + "@'%'"
  }

  // === Statements ============================================================

  function PgCreateRole(user: string, password: string): string {
    "CREATE ROLE " + PgQuoteIdent(user) + " LOGIN" +
    if password != "" then " PASSWORD " + PgQuoteLiteral(password) else ""
  }

  function PgCreateDatabase(name: string, admin: bool, user: string): string {
    "CREATE DATABASE " + PgQuoteIdent(name) +
    if admin && user != "" then " OWNER " + PgQuoteIdent(user) else ""
  }

  function MySQLCreateDatabase(name: string): string {
    "CREATE DATABASE IF NOT EXISTS " + MySQLQuoteIdent(name)
  }

  function MySQLCreateUser(user: string, password: string): string {
    "CREATE USER IF NOT EXISTS " + MySQLQuoteAccount(user) + " IDENTIFIED BY " + MySQLQuoteString(password)
  }

  function MySQLGrant(name: string, user: string): string {
    "GRANT ALL PRIVILEGES ON " + MySQLQuoteIdent(name) + ".* TO " + MySQLQuoteAccount(user)
  }

  // === Lexers ================================================================

  datatype Dialect = Postgres | MySQL

  datatype Token = Word(text: string) | Ident(name: string) | Literal(text: string) | Punct(c: char)

  predicate Letter(c: char) {
    'a' <= c <= 'z' || 'A' <= c <= 'Z' || c == '_'
  }

  predicate WordChar(c: char) {
    Letter(c) || '0' <= c <= '9'
  }

  // The longest run of word characters at the start of s.
  function WordLength(s: string): (n: nat)
    ensures n <= |s|
  {
    if s == "" || !WordChar(s[0]) then 0 else 1 + WordLength(s[1..])
  }

  // The body of a delimited token up to its closing quote, and what follows it; a
  // doubled quote stands for one.
  function ReadDoubled(q: char, s: string): (r: Option<(string, string)>)
    ensures r.Some? ==> |r.value.1| < |s|
    decreases |s|
  {
    if s == "" then None
    else if s[0] != q then Prepend([s[0]], ReadDoubled(q, s[1..]))
    else if |s| > 1 && s[1] == q then Prepend([q], ReadDoubled(q, s[2..]))
    else Some(("", s[1..]))
  }

  function Prepend(c: string, r: Option<(string, string)>): Option<(string, string)> {
    match r
    case None => None
    case Some((body, rest)) => Some((c + body, rest))
  }

  // What a MySQL backslash sequence stands for.
  function Unescaped(c: char): string {
    match c
    case '0' => [0 as char]
    case 'b' => [8 as char]
    case 'n' => "\n"
    case 'r' => "\r"
    case 't' => "\t"
    case 'Z' => [26 as char]
    case '%' => "\\%"
    case '_' => "\\_"
    case _ => [c]
  }

  function ReadEscaped(q: char, s: string): (r: Option<(string, string)>)
    ensures r.Some? ==> |r.value.1| < |s|
    decreases |s|
  {
    if s == "" then None
    else if s[0] == '\\' then (if |s| == 1 then None else Prepend(Unescaped(s[1]), ReadEscaped(q, s[2..])))
    else if s[0] != q then Prepend([s[0]], ReadEscaped(q, s[1..]))
    else if |s| > 1 && s[1] == q then Prepend([q], ReadEscaped(q, s[2..]))
    else Some(("", s[1..]))
  }

  predicate Quote(c: char) {
    c == '"' || c == '\'' || c == '`'
  }

  function IdentQuote(d: Dialect): char {
    if d.Postgres? then '"' else '`'
  }

  // The token at the start of s and the text after it. Word prefixes of literals
  // (E'...', N'...') and comments are outside this fragment.
  function Head(d: Dialect, s: string): (r: Option<(Token, string)>)
    requires s != ""
    ensures r.Some? ==> |r.value.1| < |s|
  {
    if Letter(s[0]) then
      var n := WordLength(s);
      if n < |s| && Quote(s[n]) then None else Some((Word(s[..n]), s[n..]))
    else if s[0] == IdentQuote(d) then
      match ReadDoubled(s[0], s[1..])
      case None => None
      case Some((body, rest)) => if body == "" then None else Some((Ident(body), rest))
    else if Quote(s[0]) then
      (if d.Postgres? && s[0] == '`' then None
       else
         match if d.Postgres? then ReadDoubled(s[0], s[1..]) else ReadEscaped(s[0], s[1..])
         case None => None
         case Some((body, rest)) => Some((Literal(body), rest)))
    else if s[0] in ".*@;(),=" then Some((Punct(s[0]), s[1..]))
    else None
  }

  function Lex(d: Dialect, s: string): Option<seq<Token>>
    decreases |s|
  {
    if s == "" then Some([])
    else if s[0] in " \t\r\n" then Lex(d, s[1..])
    else
      match Head(d, s)
      case None => None
      case Some((token, rest)) =>
        match Lex(d, rest)
        case None => None
        case Some(tokens) => Some([token] + tokens)
  }

  // === A printer for token lists =============================================

  datatype Pieces = End | Gap(rest: Pieces) | Tok(token: Token, rest: Pieces)

  function SpellToken(d: Dialect, t: Token): string {
    match t
    case Word(w) => w
    case Ident(name) => if d.Postgres? then PgQuoteIdent(name) else MySQLQuoteIdent(name)
    case Literal(text) => if d.Postgres? then PgQuoteLiteral(text) else MySQLQuoteString(text)
    case Punct(c) => [c]
  }

  function Spell(d: Dialect, ps: Pieces): string {
    match ps
    case End => ""
    case Gap(rest) => " " + Spell(d, rest)
    case Tok(t, rest) => SpellToken(d, t) + Spell(d, rest)
  }

  function Tokens(ps: Pieces): seq<Token> {
    match ps
    case End => []
    case Gap(rest) => Tokens(rest)
    case Tok(t, rest) => [t] + Tokens(rest)
  }

  predicate IsWord(w: string) {
    w != "" && Letter(w[0]) && forall i :: 0 <= i < |w| ==> WordChar(w[i])
  }

  predicate Printable(t: Token) {
    match t
    case Word(w) => IsWord(w)
    case Ident(name) => name != ""
    case Literal(_) => true
    case Punct(c) => c in ".*@;(),="
  }

  // Every token is printable, and anything but punctuation is followed by a gap,
  // by punctuation, or by the end.
  predicate WellSpaced(ps: Pieces) {
    match ps
    case End => true
    case Gap(rest) => WellSpaced(rest)
    case Tok(t, rest) => Printable(t) && WellSpaced(rest) && (t.Punct? || rest.End? || rest.Gap? || rest.token.Punct?)
  }

  // A text that neither extends a word nor doubles a quote.
  predicate Boundary(s: string) {
    s == "" || (!WordChar(s[0]) && !Quote(s[0]))
  }

  lemma {:induction false} ReadsDoubled(q: char, s: string, rest: string)
    requires Boundary(rest) && Quote(q)
    ensures ReadDoubled(q, ReplaceAll(s, q, [q, q]) + [q] + rest) == Some((s, rest))
  {
    var text := ReplaceAll(s, q, [q, q]) + [q] + rest;
    if s == "" {
      assert text == [q] + rest;
    } else {
      ReadsDoubled(q, s[1..], rest);
      var tail := ReplaceAll(s[1..], q, [q, q]) + [q] + rest;
      if s[0] == q {
        assert text == [q, q] + tail && text[2..] == tail;
      } else {
        assert text == [s[0]] + tail && text[1..] == tail;
      }
      assert [s[0]] + s[1..] == s;
    }
  }

  // mysqlQuoteString's two passes as one map over the characters.
  function EscapeEach(s: string): string {
    if s == "" then ""
    else (if s[0] == '\\' then "\\\\" else if s[0] == '\'' then "''" else [s[0]]) + EscapeEach(s[1..])
  }

  lemma {:induction false} ReplaceAllConcat(a: string, b: string, c: char, with: string)
    ensures ReplaceAll(a + b, c, with) == ReplaceAll(a, c, with) + ReplaceAll(b, c, with)
  {
    if a == "" {
      assert a + b == b;
    } else {
      assert (a + b)[1..] == a[1..] + b;
      ReplaceAllConcat(a[1..], b, c, with);
    }
  }

  lemma {:induction false} TwoPasses(s: string)
    ensures MySQLQuoteString(s) == "'" + EscapeEach(s) + "'"
    ensures ReplaceAll(ReplaceAll(s, '\\', "\\\\"), '\'', "''") == EscapeEach(s)
  {
    if s != "" {
      TwoPasses(s[1..]);
      var first := if s[0] == '\\' then "\\\\" else [s[0]];
      ReplaceAllConcat(first, ReplaceAll(s[1..], '\\', "\\\\"), '\'', "''");
      OneCharacter(s[0]);
    }
  }

  lemma OneCharacter(c: char)
    ensures ReplaceAll(if c == '\\' then "\\\\" else [c], '\'', "''")
         == if c == '\\' then "\\\\" else if c == '\'' then "''" else [c]
  {
    if c == '\\' {
      assert "\\\\"[1..] == "\\" && "\\"[1..] == "";
      assert ReplaceAll("\\", '\'', "''") == "\\";
    } else {
      assert [c][1..] == "";
    }
  }

  lemma {:induction false} ReadsEscaped(s: string, rest: string)
    requires Boundary(rest)
    ensures ReadEscaped('\'', EscapeEach(s) + "'" + rest) == Some((s, rest))
  {
    var text := EscapeEach(s) + "'" + rest;
    if s == "" {
      assert text == "'" + rest;
    } else {
      ReadsEscaped(s[1..], rest);
      var tail := EscapeEach(s[1..]) + "'" + rest;
      if s[0] == '\\' {
        assert text == "\\\\" + tail && text[2..] == tail;
      } else if s[0] == '\'' {
        assert text == "''" + tail && text[2..] == tail;
      } else {
        assert text == [s[0]] + tail && text[1..] == tail;
      }
      assert [s[0]] + s[1..] == s;
    }
  }

  lemma {:induction false} WordEnds(w: string, rest: string)
    requires forall i :: 0 <= i < |w| ==> WordChar(w[i])
    requires Boundary(rest)
    ensures WordLength(w + rest) == |w|
  {
    if w == "" {
      assert w + rest == rest;
    } else {
      assert (w + rest)[1..] == w[1..] + rest;
      WordEnds(w[1..], rest);
    }
  }

  // The lexer reads a spelled token back, whatever its payload contains.
  lemma HeadReads(d: Dialect, t: Token, rest: string)
    requires Printable(t) && (t.Punct? || Boundary(rest))
    ensures var s := SpellToken(d, t) + rest;
            s != "" && s[0] !in " \t\r\n" && Head(d, s) == Some((t, rest))
  {
    match t
    case Word(w) => ReadsWord(d, w, rest);
    case Ident(name) => ReadsIdent(d, name, rest);
    case Literal(text) => ReadsLiteral(d, text, rest);
    case Punct(c) =>
      assert ([c] + rest)[1..] == rest;
  }

  lemma ReadsWord(d: Dialect, w: string, rest: string)
    requires IsWord(w) && Boundary(rest)
    ensures Head(d, w + rest) == Some((Word(w), rest))
  {
    WordEnds(w, rest);
    assert (w + rest)[..|w|] == w && (w + rest)[|w|..] == rest;
  }

  lemma ReadsIdent(d: Dialect, name: string, rest: string)
    requires name != "" && Boundary(rest)
    ensures Head(d, SpellToken(d, Ident(name)) + rest) == Some((Ident(name), rest))
  {
    var q := IdentQuote(d);
    ReadsDoubled(q, name, rest);
    assert SpellToken(d, Ident(name)) == [q] + ReplaceAll(name, q, [q, q]) + [q];
    assert (SpellToken(d, Ident(name)) + rest)[1..] == ReplaceAll(name, q, [q, q]) + [q] + rest;
  }

  lemma ReadsLiteral(d: Dialect, text: string, rest: string)
    requires Boundary(rest)
    ensures Head(d, SpellToken(d, Literal(text)) + rest) == Some((Literal(text), rest))
  {
    var s := SpellToken(d, Literal(text)) + rest;
    if d.Postgres? {
      ReadsDoubled('\'', text, rest);
      assert s[1..] == ReplaceAll(text, '\'', "''") + "'" + rest;
    } else {
      TwoPasses(text);
      ReadsEscaped(text, rest);
      assert s[1..] == EscapeEach(text) + "'" + rest;
    }
  }

  lemma StartsSpell(d: Dialect, ps: Pieces)
    requires WellSpaced(ps) && (ps.End? || ps.Gap? || ps.token.Punct?)
    ensures Boundary(Spell(d, ps))
  {
  }

  // Lexing undoes printing.
  lemma {:induction false} LexSpell(d: Dialect, ps: Pieces)
    requires WellSpaced(ps)
    ensures Lex(d, Spell(d, ps)) == Some(Tokens(ps))
  {
    match ps
    case End =>
    case Gap(rest) =>
      LexSpell(d, rest);
      assert Spell(d, ps)[1..] == Spell(d, rest);
    case Tok(t, rest) =>
      LexSpell(d, rest);
      if !t.Punct? {
        StartsSpell(d, rest);
      }
      HeadReads(d, t, Spell(d, rest));
  }

  // === The built statements ==================================================

  // Keywords, each followed by a gap.
  function Key(w: string, rest: Pieces): Pieces {
    Tok(Word(w), Gap(rest))
  }

  lemma KeyPrints(d: Dialect, w: string, rest: Pieces)
    requires IsWord(w) && WellSpaced(rest)
    ensures WellSpaced(Key(w, rest))
    ensures Spell(d, Key(w, rest)) == w + (" " + Spell(d, rest))
    ensures Tokens(Key(w, rest)) == [Word(w)] + Tokens(rest)
  {
  }

  lemma TokPrints(d: Dialect, t: Token, rest: Pieces)
    requires Printable(t) && WellSpaced(rest) && (t.Punct? || rest.End? || rest.Gap? || rest.token.Punct?)
    ensures WellSpaced(Tok(t, rest))
    ensures Spell(d, Tok(t, rest)) == SpellToken(d, t) + Spell(d, rest)
    ensures Tokens(Tok(t, rest)) == [t] + Tokens(rest)
  {
  }

  lemma TwoKeys(d: Dialect, u: string, v: string, rest: Pieces)
    requires IsWord(u) && IsWord(v) && WellSpaced(rest)
    ensures WellSpaced(Key(u, Key(v, rest)))
    ensures Spell(d, Key(u, Key(v, rest))) == u + (" " + (v + (" " + Spell(d, rest))))
    ensures Tokens(Key(u, Key(v, rest))) == [Word(u), Word(v)] + Tokens(rest)
  {
    KeyPrints(d, v, rest);
    KeyPrints(d, u, Key(v, rest));
  }

  lemma ThreeKeys(d: Dialect, u: string, v: string, w: string, rest: Pieces)
    requires IsWord(u) && IsWord(v) && IsWord(w) && WellSpaced(rest)
    ensures WellSpaced(Key(u, Key(v, Key(w, rest))))
    ensures Spell(d, Key(u, Key(v, Key(w, rest)))) == u + (" " + (v + (" " + (w + (" " + Spell(d, rest))))))
    ensures Tokens(Key(u, Key(v, Key(w, rest)))) == [Word(u), Word(v), Word(w)] + Tokens(rest)
  {
    TwoKeys(d, v, w, rest);
    KeyPrints(d, u, Key(v, Key(w, rest)));
  }

  // A last part of a statement: a gap, a keyword and a token.
  lemma OptionPrints(d: Dialect, w: string, t: Token)
    requires IsWord(w) && Printable(t)
    ensures WellSpaced(Gap(Key(w, Tok(t, End))))
    ensures Spell(d, Gap(Key(w, Tok(t, End)))) == " " + (w + (" " + SpellToken(d, t)))
    ensures Tokens(Gap(Key(w, Tok(t, End)))) == [Word(w), t]
  {
    OneTokenPrints(d, t);
    KeyPrints(d, w, Tok(t, End));
  }

  lemma OneTokenPrints(d: Dialect, t: Token)
    ensures Spell(d, Tok(t, End)) == SpellToken(d, t) && Tokens(Tok(t, End)) == [t]
  {
    assert SpellToken(d, t) + "" == SpellToken(d, t);
  }

  lemma PgWords()
    ensures IsWord("CREATE") && IsWord("ROLE") && IsWord("LOGIN") && IsWord("PASSWORD") && IsWord("DATABASE") &&
        IsWord("OWNER")
  {
  }

  // === CREATE ROLE <user> LOGIN [PASSWORD <password>] ========================

  function Secret(password: string): Pieces {
    if password != "" then Gap(Key("PASSWORD", Tok(Literal(password), End))) else End
  }

  function SecretText(password: string): string {
    if password != "" then " PASSWORD " + PgQuoteLiteral(password) else ""
  }

  lemma SecretPrints(password: string)
    ensures WellSpaced(Secret(password)) && Spell(Postgres, Secret(password)) == SecretText(password)
    ensures Tokens(Secret(password)) == if password != "" then [Word("PASSWORD"), Literal(password)] else []
    ensures Secret(password).End? || Secret(password).Gap?
  {
    PgWords();
    OptionPrints(Postgres, "PASSWORD", Literal(password));
    SecretIs(PgQuoteLiteral(password));
  }

  lemma SecretIs(x: string)
    ensures " " + ("PASSWORD" + (" " + x)) == " PASSWORD " + x
  {
    assert " " + ("PASSWORD" + " ") == " PASSWORD ";
  }

  lemma LoginPrints(user: string, w: string, rest: Pieces)
    requires user != "" && IsWord(w) && WellSpaced(rest) && (rest.End? || rest.Gap?)
    ensures var ps := Tok(Ident(user), Gap(Tok(Word(w), rest)));
            && WellSpaced(ps) && Tokens(ps) == [Ident(user), Word(w)] + Tokens(rest)
            && Spell(Postgres, ps) == PgQuoteIdent(user) + (" " + (w + Spell(Postgres, rest)))
  {
    var word := Tok(Word(w), rest);
    assert WellSpaced(word) && Tokens(word) == [Word(w)] + Tokens(rest);
    assert Spell(Postgres, word) == w + Spell(Postgres, rest);
    assert Tokens(Gap(word)) == Tokens(word) && Spell(Postgres, Gap(word)) == " " + Spell(Postgres, word);
  }

  lemma RoleIs(user: string, x: string)
    ensures "CREATE" + (" " + ("ROLE" + (" " + (user + (" " + ("LOGIN" + x)))))) == "CREATE ROLE " + user + " LOGIN" + x
  {
    assert "CREATE" + (" " + ("ROLE" + " ")) == "CREATE ROLE ";
    assert " " + "LOGIN" == " LOGIN";
  }

  lemma PgCreateRoleLexes(user: string, password: string)
    requires user != ""
    ensures Lex(Postgres, PgCreateRole(user, password)) ==
            Some([Word("CREATE"), Word("ROLE")] + ([Ident(user), Word("LOGIN")] +
                 if password != "" then [Word("PASSWORD"), Literal(password)] else []))
  {
    var ps := Tok(Ident(user), Gap(Tok(Word("LOGIN"), Secret(password))));
    PgWords();
    SecretPrints(password);
    LoginPrints(user, "LOGIN", Secret(password));
    TwoKeys(Postgres, "CREATE", "ROLE", ps);
    RoleIs(PgQuoteIdent(user), SecretText(password));
    LexSpell(Postgres, Key("CREATE", Key("ROLE", ps)));
  }

  // === CREATE DATABASE <name> [OWNER <user>] =================================

  function Owner(admin: bool, user: string): Pieces {
    if admin && user != "" then Gap(Key("OWNER", Tok(Ident(user), End))) else End
  }

  function OwnerText(admin: bool, user: string): string {
    if admin && user != "" then " OWNER " + PgQuoteIdent(user) else ""
  }

  lemma OwnerPrints(admin: bool, user: string)
    ensures WellSpaced(Owner(admin, user)) && Spell(Postgres, Owner(admin, user)) == OwnerText(admin, user)
    ensures Tokens(Owner(admin, user)) == if admin && user != "" then [Word("OWNER"), Ident(user)] else []
    ensures Owner(admin, user).End? || Owner(admin, user).Gap?
  {
    PgWords();
    if user != "" {
      OptionPrints(Postgres, "OWNER", Ident(user));
      OwnerIs(PgQuoteIdent(user));
    }
  }

  lemma OwnerIs(x: string)
    ensures " " + ("OWNER" + (" " + x)) == " OWNER " + x
  {
    assert " " + ("OWNER" + " ") == " OWNER ";
  }

  lemma DatabaseIs(name: string, x: string)
    ensures "CREATE" + (" " + ("DATABASE" + (" " + (name + x)))) == "CREATE DATABASE " + name + x
  {
    assert "CREATE" + (" " + ("DATABASE" + " ")) == "CREATE DATABASE ";
  }

  lemma PgCreateDatabaseLexes(name: string, admin: bool, user: string)
    requires name != ""
    ensures Lex(Postgres, PgCreateDatabase(name, admin, user)) ==
            Some([Word("CREATE"), Word("DATABASE")] + ([Ident(name)] +
                 if admin && user != "" then [Word("OWNER"), Ident(user)] else []))
  {
    var ps := Tok(Ident(name), Owner(admin, user));
    PgWords();
    OwnerPrints(admin, user);
    TokPrints(Postgres, Ident(name), Owner(admin, user));
    TwoKeys(Postgres, "CREATE", "DATABASE", ps);
    DatabaseIs(PgQuoteIdent(name), OwnerText(admin, user));
    LexSpell(Postgres, Key("CREATE", Key("DATABASE", ps)));
  }

  // === CREATE DATABASE IF NOT EXISTS <name> ==================================

  lemma MySQLWords()
    ensures IsWord("CREATE") && IsWord("DATABASE") && IsWord("USER") && IsWord("IF") && IsWord("NOT") &&
        IsWord("EXISTS")
    ensures IsWord("IDENTIFIED") && IsWord("BY") && IsWord("GRANT") && IsWord("ALL") && IsWord("PRIVILEGES")
    ensures IsWord("ON") && IsWord("TO")
  {
  }

  function CreateIfNotExists(kind: string, rest: Pieces): Pieces {
    Key("CREATE", Key(kind, Key("IF", Key("NOT", Key("EXISTS", rest)))))
  }

  lemma CreateIfNotExistsPrints(kind: string, rest: Pieces)
    requires IsWord(kind) && WellSpaced(rest)
    ensures WellSpaced(CreateIfNotExists(kind, rest))
    ensures Spell(MySQL, CreateIfNotExists(kind, rest)) == "CREATE " + (kind + (" IF NOT EXISTS " + Spell(MySQL, rest)))
    ensures Tokens(CreateIfNotExists(kind, rest)) ==
            [Word("CREATE"), Word(kind)] + ([Word("IF"), Word("NOT"), Word("EXISTS")] + Tokens(rest))
  {
    MySQLWords();
    ThreeKeys(MySQL, "IF", "NOT", "EXISTS", rest);
    TwoKeys(MySQL, "CREATE", kind, Key("IF", Key("NOT", Key("EXISTS", rest))));
    CreateIs(kind, Spell(MySQL, rest));
  }

  lemma CreateIs(kind: string, x: string)
    ensures "CREATE" + (" " + (kind + (" " + ("IF" + (" " + ("NOT" + (" " + ("EXISTS" + (" " + x))))))))) ==
            "CREATE " + (kind + (" IF NOT EXISTS " + x))
  {
    assert " " + ("IF" + (" " + ("NOT" + (" " + ("EXISTS" + " "))))) == " IF NOT EXISTS ";
    assert " " + ("IF" + (" " + ("NOT" + (" " + ("EXISTS" + (" " + x)))))) == " IF NOT EXISTS " + x;
    assert "CREATE" + " " == "CREATE ";
  }

  lemma MySQLDatabaseIs(x: string)
    ensures "CREATE " + ("DATABASE" + (" IF NOT EXISTS " + x)) == "CREATE DATABASE IF NOT EXISTS " + x
  {
    assert "CREATE " + ("DATABASE" + " IF NOT EXISTS ") == "CREATE DATABASE IF NOT EXISTS ";
  }

  lemma MySQLCreateDatabaseLexes(name: string)
    requires name != ""
    ensures Lex(MySQL, MySQLCreateDatabase(name)) ==
            Some([Word("CREATE"), Word("DATABASE")] + ([Word("IF"), Word("NOT"), Word("EXISTS")] + [Ident(name)]))
  {
    var ps := Tok(Ident(name), End);
    MySQLWords();
    OneTokenPrints(MySQL, Ident(name));
    CreateIfNotExistsPrints("DATABASE", ps);
    MySQLDatabaseIs(MySQLQuoteIdent(name));
    LexSpell(MySQL, CreateIfNotExists("DATABASE", ps));
  }

  // === CREATE USER IF NOT EXISTS <account> IDENTIFIED BY <password> ==========

  // The account 'user'@'%'.
  function Account(user: string, rest: Pieces): Pieces {
    Tok(Literal(user), Tok(Punct('@'), Tok(Literal("%"), rest)))
  }

  lemma AnyHost()
    ensures MySQLQuoteString("%") == "'%'"
  {
    TwoPasses("%");
    assert "%"[1..] == "";
    assert EscapeEach("%") == "%" + EscapeEach("");
  }

  lemma Flat(a: Token, b: Token, x: seq<Token>)
    ensures [a] + ([b] + x) == [a, b] + x
  {
  }

  lemma Flat3(a: Token, b: Token, c: Token, x: seq<Token>)
    ensures [a] + ([b] + ([c] + x)) == [a, b, c] + x
  {
  }

  lemma AccountPrints(user: string, rest: Pieces)
    requires WellSpaced(rest) && (rest.End? || rest.Gap?)
    ensures WellSpaced(Account(user, rest))
    ensures Spell(MySQL, Account(user, rest)) == MySQLQuoteAccount(user) + Spell(MySQL, rest)
    ensures Tokens(Account(user, rest)) == [Literal(user), Punct('@'), Literal("%")] + Tokens(rest)
  {
    AnyHost();
    TokPrints(MySQL, Literal("%"), rest);
    TokPrints(MySQL, Punct('@'), Tok(Literal("%"), rest));
    TokPrints(MySQL, Literal(user), Tok(Punct('@'), Tok(Literal("%"), rest)));
    AccountIs(MySQLQuoteString(user), Spell(MySQL, rest));
    Flat3(Literal(user), Punct('@'), Literal("%"), Tokens(rest));
  }

  lemma AccountIs(user: string, x: string)
    ensures user + ("@" + ("'%'" + x)) == (user + "@'%'") + x
  {
    assert "@" + "'%'" == "@'%'";
  }

  lemma IdentifiedPrints(password: string)
    ensures var ps := Gap(Key("IDENTIFIED", Key("BY", Tok(Literal(password), End))));
            && WellSpaced(ps) && Tokens(ps) == [Word("IDENTIFIED"), Word("BY")] + [Literal(password)]
            && Spell(MySQL, ps) == " IDENTIFIED BY " + MySQLQuoteString(password)
  {
    MySQLWords();
    OneTokenPrints(MySQL, Literal(password));
    TwoKeys(MySQL, "IDENTIFIED", "BY", Tok(Literal(password), End));
    IdentifiedIs(MySQLQuoteString(password));
  }

  lemma IdentifiedIs(x: string)
    ensures " " + ("IDENTIFIED" + (" " + ("BY" + (" " + x)))) == " IDENTIFIED BY " + x
  {
    assert " " + ("IDENTIFIED" + (" " + ("BY" + " "))) == " IDENTIFIED BY ";
  }

  lemma UserIs(account: string, secret: string)
    ensures "CREATE " + ("USER" + (" IF NOT EXISTS " + (account + (" IDENTIFIED BY " + secret)))) ==
            "CREATE USER IF NOT EXISTS " + account + " IDENTIFIED BY " + secret
  {
    assert "CREATE " + ("USER" + " IF NOT EXISTS ") == "CREATE USER IF NOT EXISTS ";
    var x := account + (" IDENTIFIED BY " + secret);
    assert "CREATE " + ("USER" + (" IF NOT EXISTS " + x)) == "CREATE USER IF NOT EXISTS " + x;
  }

  lemma MySQLCreateUserLexes(user: string, password: string)
    ensures Lex(MySQL, MySQLCreateUser(user, password)) ==
            Some([Word("CREATE"), Word("USER")] + ([Word("IF"), Word("NOT"), Word("EXISTS")] +
                 ([Literal(user), Punct('@'), Literal("%")] +
                     ([Word("IDENTIFIED"), Word("BY")] + [Literal(password)]))))
  {
    var secret := Gap(Key("IDENTIFIED", Key("BY", Tok(Literal(password), End))));
    MySQLWords();
    IdentifiedPrints(password);
    AccountPrints(user, secret);
    CreateIfNotExistsPrints("USER", Account(user, secret));
    UserIs(MySQLQuoteAccount(user), MySQLQuoteString(password));
    LexSpell(MySQL, CreateIfNotExists("USER", Account(user, secret)));
  }

  // === GRANT ALL PRIVILEGES ON <name>.* TO <account> =========================

  function Grantee(user: string): Pieces {
    Tok(Punct('.'), Tok(Punct('*'), Gap(Key("TO", Account(user, End)))))
  }

  lemma GranteePrints(user: string)
    ensures WellSpaced(Grantee(user)) && Spell(MySQL, Grantee(user)) == ".* TO " + MySQLQuoteAccount(user)
    ensures Tokens(Grantee(user)) ==
        [Punct('.'), Punct('*')] + ([Word("TO")] + [Literal(user), Punct('@'), Literal("%")])
  {
    MySQLWords();
    AccountPrints(user, End);
    var account := MySQLQuoteAccount(user);
    assert account + "" == account;
    KeyPrints(MySQL, "TO", Account(user, End));
    PunctPrints(Gap(Key("TO", Account(user, End))));
    GranteeIs(account);
  }

  lemma PunctPrints(rest: Pieces)
    requires WellSpaced(rest)
    ensures var ps := Tok(Punct('.'), Tok(Punct('*'), rest));
            && WellSpaced(ps) && Tokens(ps) == [Punct('.'), Punct('*')] + Tokens(rest)
            && Spell(MySQL, ps) == "." + ("*" + Spell(MySQL, rest))
  {
    TokPrints(MySQL, Punct('*'), rest);
    TokPrints(MySQL, Punct('.'), Tok(Punct('*'), rest));
    Flat(Punct('.'), Punct('*'), Tokens(rest));
  }

  lemma GranteeIs(x: string)
    ensures "." + ("*" + (" " + ("TO" + (" " + x)))) == ".* TO " + x
  {
    assert "." + ("*" + (" " + ("TO" + " "))) == ".* TO ";
  }

  lemma GrantIs(name: string, x: string)
    ensures "GRANT" + (" " + ("ALL" + (" " + ("PRIVILEGES" + (" " + ("ON" + (" " + (name + (".* TO " + x))))))))) ==
            "GRANT ALL PRIVILEGES ON " + name + ".* TO " + x
  {
    assert "GRANT" + (" " + ("ALL" + (" " + ("PRIVILEGES" + (" " + ("ON" + " ")))))) == "GRANT ALL PRIVILEGES ON ";
    var y := name + (".* TO " + x);
    assert "GRANT" + (" " + ("ALL" + (" " + ("PRIVILEGES" + (" " + ("ON" + (" " + y))))))) ==
        "GRANT ALL PRIVILEGES ON " + y;
  }

  lemma MySQLGrantLexes(name: string, user: string)
    requires name != ""
    ensures Lex(MySQL, MySQLGrant(name, user)) ==
            Some([Word("GRANT")] + ([Word("ALL"), Word("PRIVILEGES"), Word("ON")] + ([Ident(name)] +
                 ([Punct('.'), Punct('*')] + ([Word("TO")] + [Literal(user), Punct('@'), Literal("%")])))))
  {
    var ps := Tok(Ident(name), Grantee(user));
    MySQLWords();
    GranteePrints(user);
    TokPrints(MySQL, Ident(name), Grantee(user));
    ThreeKeys(MySQL, "ALL", "PRIVILEGES", "ON", ps);
    KeyPrints(MySQL, "GRANT", Key("ALL", Key("PRIVILEGES", Key("ON", ps))));
    GrantIs(MySQLQuoteIdent(name), MySQLQuoteAccount(user));
    LexSpell(MySQL, Key("GRANT", Key("ALL", Key("PRIVILEGES", Key("ON", ps)))));
  }
}
