/**
 Credential interpolation in header values: `${credentials.name}` is replaced by a declared credential,
 and `$${` stands for a literal `${`. A character is one UTF-16 code unit of the original.
 */
module CredentialResolver {
  import opened Prelude

  datatype ResolveError =
    | Unterminated
    | InvalidName(expression: string)
    | UnknownNamespace(expression: string)
    | Malformed(expression: string)
    | Undeclared(name: string)
    | Unavailable(name: string)

  predicate StartsWith(s: string, prefix: string) {
    |prefix| <= |s| && s[..|prefix|] == prefix
  }

  /** The value goes on with `${`. */
  predicate Opens(s: string) {
    |s| >= 2 && s[0] == '$' && s[1] == '{'
  }

  /** The value goes on with `$${`. */
  predicate Escapes(s: string) {
    |s| >= 3 && s[0] == '$' && s[1] == '$' && s[2] == '{'
  }

  /** The index of the first closing brace, or the length of the string. */
  function Closing(s: string): (p: nat)
    ensures p <= |s| && (p < |s| ==> s[p] == '}') && forall k :: 0 <= k < p ==> s[k] != '}'
  {
    if s == "" || s[0] == '}' then 0 else 1 + Closing(s[1..])
  }

  predicate IsLetter(c: char) {
    'a' <= c <= 'z' || 'A' <= c <= 'Z' || c == '_'
  }

  /** `[a-zA-Z_][a-zA-Z0-9_]*` */
  predicate IsName(s: string) {
    s != "" && IsLetter(s[0]) && forall k :: 0 <= k < |s| ==> IsLetter(s[k]) || '0' <= s[k] <= '9'
  }

  const Namespace := "credentials"
  const Prefix := "credentials."

  /** The text before the first dot. */
  function Head(s: string): string {
    if s == "" || s[0] == '.' then "" else [s[0]] + Head(s[1..])
  }

  /** The credential an expression names, if it names one. */
  function NameOf(expression: string): Result<string, ResolveError> {
    if StartsWith(expression, Prefix) && IsName(expression[|Prefix|..]) then Success(expression[|Prefix|..])
    else if StartsWith(expression, Prefix) then Failure(InvalidName(expression))
    else if Head(expression) != Namespace then Failure(UnknownNamespace(expression))
    else Failure(Malformed(expression))
  }

  /** The names, character by character: letters a to z and A to Z, underscores and digits, and no digit in front. */
  predicate SpellsName(s: string) {
    && |s| > 0 && !('0' <= s[0] <= '9')
    && forall k :: 0 <= k < |s| ==> 'a' <= s[k] <= 'z' || 'A' <= s[k] <= 'Z' || '0' <= s[k] <= '9' || s[k] == '_'
  }

  lemma NamesAreSpelled(s: string)
    ensures IsName(s) <==> SpellsName(s)
  {
  }

  lemma {:induction false} HeadEndsAtDot(s: string)
    ensures var h := Head(s);
      && |h| <= |s| && s[..|h|] == h && (|h| < |s| ==> s[|h|] == '.') && forall k :: 0 <= k < |h| ==> h[k] != '.'
  {
    if s != "" && s[0] != '.' { HeadEndsAtDot(s[1..]); }
  }

  /** A text whose first word is this one: the word alone, or anything behind it and a dot. */
  lemma FirstWord(s: string, word: string)
    requires forall k :: 0 <= k < |word| ==> word[k] != '.'
    ensures Head(s) == word <==> s == word || StartsWith(s, word + ".")
  {
    HeadEndsAtDot(s);
    var n := |word|;
    if Head(s) == word && n < |s| { assert s[..n + 1] == s[..n] + [s[n]]; }
    if StartsWith(s, word + ".") {
      assert s[..n + 1][..n] == s[..n] && s[n] == s[..n + 1][n] == '.';
    }
  }

  /** `resolveExpression`, given the declared names and what the credential store holds. */
  function ResolveExpression(expression: string, declared: seq<string>,
      store: map<string, string>): Result<string, ResolveError>
  {
    var name :- NameOf(expression);
    if name !in declared then Failure(Undeclared(name))
    else if name !in store then Failure(Unavailable(name))
    else Success(store[name])
  }

  /**
   When an expression resolves, and the error it meets otherwise. It resolves if it is "credentials." and a name that
   is declared and stored. Behind "credentials." what is no name is invalid, and a name is undeclared or unavailable.
   Without "credentials." in front, the bare word "credentials" is malformed and everything else has another namespace.
   */
  ghost predicate Answers(expression: string, declared: seq<string>, store: map<string, string>,
      r: Result<string, ResolveError>)
  {
    && (r.Success? <==>
          exists name :: expression == "credentials." + name && SpellsName(name) && name in declared && name in store)
    && (forall name :: expression == "credentials." + name ==>
          r == if !SpellsName(name) then Failure(InvalidName(expression))
               else if name !in declared then Failure(Undeclared(name))
               else if name !in store then Failure(Unavailable(name))
               else Success(store[name]))
    && ((forall name :: expression != "credentials." + name) ==>
          r == Failure(if expression == "credentials" then Malformed(expression) else UnknownNamespace(expression)))
  }

  lemma ExpressionExactlyWhen(expression: string, declared: seq<string>, store: map<string, string>)
    ensures Answers(expression, declared, store, ResolveExpression(expression, declared, store))
  {
    hide IsName, SpellsName, Head;
    var n := |"credentials."|;
    forall name | expression == "credentials." + name
      ensures StartsWith(expression, Prefix) && expression[n..] == name && (IsName(name) <==> SpellsName(name))
    {
      NamesAreSpelled(name);
    }
    assert "credentials." == "credentials" + ".";
    FirstWord(expression, "credentials");
    if StartsWith(expression, Prefix) { assert expression == "credentials." + expression[n..]; }
  }

  // ---------------------------------------------------------------------------
  // Reading a value: its tokens do not depend on any credential

  datatype Token = Literal(c: char) | Opening | Expression(text: string) | Open(rest: string)

  function Tokens(s: string): seq<Token>
    decreases |s|
  {
    if s == "" then []
    else if Escapes(s) then [Opening] + Tokens(s[3..])
    else if Opens(s) then
      var p := Closing(s[2..]);
      if p == |s[2..]| then [Open(s[2..])] else [Expression(s[2..2 + p])] + Tokens(s[2 + p + 1..])
    else [Literal(s[0])] + Tokens(s[1..])
  }

  function Source(t: Token): string {
    match t
    case Literal(c) => [c]
    case Opening => "$${"
    case Expression(text) => "${" + text + "}"
    case Open(rest) => "${" + rest
  }

  function Sources(ts: seq<Token>): string {
    if ts == [] then "" else Source(ts[0]) + Sources(ts[1..])
  }

  /** The first token of a value and what follows it. */
  function FirstToken(s: string): (Token, string)
    requires s != ""
  {
    if Escapes(s) then (Opening, s[3..])
    else if Opens(s) then
      var p := Closing(s[2..]);
      if p == |s[2..]| then (Open(s[2..]), "") else (Expression(s[2..2 + p]), s[2 + p + 1..])
    else (Literal(s[0]), s[1..])
  }

  lemma FirstThenRest(s: string)
    requires s != ""
    ensures Tokens(s) == [FirstToken(s).0] + Tokens(FirstToken(s).1)
  {
  }

  lemma FirstSpells(s: string)
    requires s != ""
    ensures Source(FirstToken(s).0) + FirstToken(s).1 == s && |FirstToken(s).1| < |s|
  {
    if Escapes(s) {
      assert s == "$${" + s[3..];
    } else if Opens(s) {
      var p := Closing(s[2..]);
      assert s == "${" + s[2..];
      if p < |s[2..]| {
        assert s[2..] == s[2..2 + p] + "}" + s[2 + p + 1..];
      }
    }
  }

  lemma SourcesOfFirst(t: Token, ts: seq<Token>)
    ensures Sources([t] + ts) == Source(t) + Sources(ts)
  {
    assert ([t] + ts)[1..] == ts;
  }

  /** No text is lost in reading: the tokens spell the value. */
  lemma {:induction false} TokensSpellTheValue(s: string)
    ensures Sources(Tokens(s)) == s
    decreases |s|
  {
    if s != "" {
      FirstThenRest(s);
      FirstSpells(s);
      hide FirstToken, Source, Sources, Tokens;
      TokensSpellTheValue(FirstToken(s).1);
      SourcesOfFirst(FirstToken(s).0, Tokens(FirstToken(s).1));
    }
  }

  /** What one token contributes; an expression contributes the credential's value as it is. */
  function Value(t: Token, declared: seq<string>, store: map<string, string>): Result<string, ResolveError> {
    match t
    case Literal(c) => Success([c])
    case Opening => Success("${")
    case Expression(text) => ResolveExpression(text, declared, store)
    case Open(_) => Failure(Unterminated)
  }

  /** The values of the tokens one after the other, up to the first error. */
  function Values(ts: seq<Token>, declared: seq<string>, store: map<string, string>): Result<string, ResolveError> {
    if ts == [] then Success("")
    else
      var first :- Value(ts[0], declared, store);
      var rest :- Values(ts[1..], declared, store);
      Success(first + rest)
  }

  /** `resolveString` */
  function Resolved(s: string, declared: seq<string>, store: map<string, string>): Result<string, ResolveError> {
    Values(Tokens(s), declared, store)
  }

  /** The credentials fetched on the way: the declared names of the expressions up to the first error. */
  function Fetched(ts: seq<Token>, declared: seq<string>, store: map<string, string>): seq<string> {
    if ts == [] then []
    else
      FetchedBy(ts[0], declared) + if Value(ts[0], declared, store).Success? then Fetched(ts[1..], declared, store)
        else []
  }

  // ---------------------------------------------------------------------------
  // Properties

  /** Only declared names are ever fetched, and each is named by an expression of the value. */
  lemma {:induction false} OnlyDeclaredAreFetched(ts: seq<Token>, declared: seq<string>, store: map<string, string>)
    ensures forall name :: name in Fetched(ts, declared, store) ==>
      name in declared && SpellsName(name) && Expression("credentials." + name) in ts
  {
    if ts != [] {
      OnlyDeclaredAreFetched(ts[1..], declared, store);
      if ts[0].Expression? && NameOf(ts[0].text).Success? {
        NamesAreSpelled(NameOf(ts[0].text).value);
        assert ts[0].text == "credentials." + NameOf(ts[0].text).value;
      }
    }
  }

  /** A value resolves exactly when every one of its tokens does. */
  lemma {:induction false} ResolvesWhenEveryTokenDoes(ts: seq<Token>, declared: seq<string>, store: map<string, string>)
    ensures Values(ts, declared, store).Success?
      <==> forall k :: 0 <= k < |ts| ==> Value(ts[k], declared, store).Success?
  {
    if ts != [] {
      ResolvesWhenEveryTokenDoes(ts[1..], declared, store);
      if Values(ts, declared, store).Success? {
        forall k | 0 <= k < |ts| ensures Value(ts[k], declared, store).Success? {
          if k > 0 { assert ts[k] == ts[1..][k - 1]; }
        }
      } else if Value(ts[0], declared, store).Success? {
        var k :| 0 <= k < |ts| - 1 && Value(ts[1..][k], declared, store).Failure?;
        assert ts[k + 1] == ts[1..][k];
      }
    }
  }

  /** The credential store matters only through the names that are fetched. */
  lemma {:induction false} OnlyFetchedMatter(ts: seq<Token>, declared: seq<string>, a: map<string, string>,
      b: map<string, string>)
    requires forall name :: name in Fetched(ts, declared, a)
               ==> (name in a <==> name in b) && (name in a ==> a[name] == b[name])
    ensures Values(ts, declared, a) == Values(ts, declared, b) && Fetched(ts, declared, a) == Fetched(ts, declared, b)
  {
    if ts != [] {
      assert Value(ts[0], declared, a) == Value(ts[0], declared, b);
      if Value(ts[0], declared, a).Success? { OnlyFetchedMatter(ts[1..], declared, a, b); }
    }
  }

  /** Every `${` doubled to `$${`. */
  function Escape(s: string): string
    decreases |s|
  {
    if s == "" then ""
    else if Opens(s) then "$${" + Escape(s[2..])
    else [s[0]] + Escape(s[1..])
  }

  /** Escaping keeps the first character, and a brace at the front only where there was one. */
  lemma EscapeFront(s: string)
    ensures (Escape(s) == "" <==> s == "") && (s != "" ==> Escape(s)[0] == s[0])
  {
  }

  /** The first characters of an escaped text that does not itself open an expression. */
  lemma EscapeStart(s: string)
    requires s != "" && !Opens(s)
    ensures var e := Escape(s);
      && |e| >= |s| && e[0] == s[0] && (|s| == 1 ==> |e| == 1)
      && (|s| >= 2 ==> e[1] == s[1] && !(s[0] == '$' && s[1] == '{'))
      && (|s| == 2 ==> |e| == 2)
      && (|s| >= 3 ==> e[2] == if s[1] == '$' && s[2] == '{' then '$' else s[2])
  {
    EscapeLength(s[1..]);
    EscapeFront(s[1..]);
    if |s| >= 2 {
      assert s[..2] == [s[0], s[1]];
      assert Escape(s) == [s[0]] + Escape(s[1..]);
      if |s| >= 3 {
        assert s[1..][..2] == [s[1], s[2]] && s[1..][1..] == s[2..];
        EscapeFront(s[2..]);
      }
    }
  }

  lemma {:induction false} EscapeLength(s: string)
    ensures |Escape(s)| >= |s| && (|s| == 1 ==> |Escape(s)| == 1)
    decreases |s|
  {
    if s != "" {
      if Opens(s) { EscapeLength(s[2..]); } else { EscapeLength(s[1..]); }
    }
  }

  /** An escaped text holds no expression: `$` is followed by what cannot open one. */
  lemma EscapeIsPlain(s: string)
    requires s != "" && !Opens(s)
    ensures !Opens(Escape(s)) && !Escapes(Escape(s))
  {
    hide Escape;
    EscapeStart(s);
  }

  /** The tokens of an escaped text give back the text and none is an expression. */
  lemma {:induction false} EscapedTokens(s: string, declared: seq<string>, store: map<string, string>)
    ensures Values(Tokens(Escape(s)), declared, store) == Success(s)
    ensures Fetched(Tokens(Escape(s)), declared, store) == []
    decreases |s|
  {
    if s != "" {
      if Opens(s) {
        EscapedTokens(s[2..], declared, store);
        assert Escape(s)[..3] == "$${" && Escape(s)[3..] == Escape(s[2..]);
        assert s == "${" + s[2..];
        assert Tokens(Escape(s)) == [Opening] + Tokens(Escape(s[2..]));
      } else {
        EscapedTokens(s[1..], declared, store);
        EscapeIsPlain(s);
        assert Escape(s)[1..] == Escape(s[1..]) && Escape(s)[0] == s[0];
        assert [s[0]] + s[1..] == s;
        assert Tokens(Escape(s)) == [Literal(s[0])] + Tokens(Escape(s[1..]));
      }
    }
  }

  /** Round trip: an escaped text resolves to itself and fetches nothing, whatever is declared or stored. */
  lemma EscapeRoundTrip(s: string, declared: seq<string>, store: map<string, string>)
    ensures Resolved(Escape(s), declared, store) == Success(s)
    ensures Fetched(Tokens(Escape(s)), declared, store) == []
  {
    EscapedTokens(s, declared, store);
  }

  /** A resolved text put in front of what follows. */
  function Prefixed(front: string, r: Result<string, ResolveError>): Result<string, ResolveError> {
    match r
    case Failure(e) => Failure(e)
    case Success(rest) => Success(front + rest)
  }

  lemma PrefixedTwice(a: string, b: string, r: Result<string, ResolveError>)
    ensures Prefixed(a, Prefixed(b, r)) == Prefixed(a + b, r)
  {
    if r.Success? { assert a + (b + r.value) == a + b + r.value; }
  }

  lemma PrefixedNothing(r: Result<string, ResolveError>)
    ensures Prefixed("", r) == r
  {
    if r.Success? { assert "" + r.value == r.value; }
  }

  lemma ValuesOfFirst(t: Token, ts: seq<Token>, declared: seq<string>, store: map<string, string>)
    ensures Values([t] + ts, declared, store) ==
      if Value(t, declared, store).Failure? then Value(t, declared, store)
      else Prefixed(Value(t, declared, store).value, Values(ts, declared, store))
  {
    assert ([t] + ts)[1..] == ts;
  }

  lemma FetchedFirst(t: Token, ts: seq<Token>, declared: seq<string>, store: map<string, string>)
    ensures Fetched([t] + ts, declared, store) ==
      FetchedBy(t, declared) + if Value(t, declared, store).Success? then Fetched(ts, declared, store) else []
  {
    assert ([t] + ts)[1..] == ts;
  }

  lemma OpeningInFront(before: string, tail: string)
    requires Opens(before)
    ensures Tokens(Escape(before) + tail) == [Opening] + Tokens(Escape(before[2..]) + tail)
  {
    var whole := Escape(before) + tail;
    assert Escapes(whole) && whole[3..] == Escape(before[2..]) + tail;
  }

  /** The text and what follows it do not run together into an opening or an escape. */
  predicate Apart(before: string, tail: string) {
    before == "" || before[|before| - 1] != '$' || StartsWith(tail, "$$")
  }

  lemma LiteralInFront(before: string, tail: string)
    requires before != "" && !Opens(before) && Apart(before, tail)
    ensures Tokens(Escape(before) + tail) == [Literal(before[0])] + Tokens(Escape(before[1..]) + tail)
  {
    hide Escape, Tokens, Closing, Opens, Escapes, Apart;
    PlainBeforePlaceholder(before, tail);
    EscapeLiteral(before);
    Associate([before[0]], Escape(before[1..]), tail);
    LiteralFirst(before[0], Escape(before[1..]) + tail);
  }

  lemma EscapeLiteral(before: string)
    requires before != "" && !Opens(before)
    ensures Escape(before) == [before[0]] + Escape(before[1..])
  {
  }

  lemma LiteralFirst(c: char, rest: string)
    requires !Opens([c] + rest) && !Escapes([c] + rest)
    ensures Tokens([c] + rest) == [Literal(c)] + Tokens(rest)
  {
    hide Closing, Opens, Escapes;
    assert ([c] + rest)[1..] == rest;
  }

  /** An escaped text resolves to itself, then comes what follows it; nothing else is fetched. */
  lemma NothingEscaped(tail: string)
    ensures Escape("") + tail == tail
  {
  }

  lemma {:induction false} EscapedInFront(before: string, tail: string, declared: seq<string>,
      store: map<string, string>)
    requires Apart(before, tail)
    ensures Values(Tokens(Escape(before) + tail), declared, store)
      == Prefixed(before, Values(Tokens(tail), declared, store))
    ensures Fetched(Tokens(Escape(before) + tail), declared, store) == Fetched(Tokens(tail), declared, store)
    decreases |before|
  {
    hide Tokens, Values, Escape, Prefixed, Fetched;
    var rest := Values(Tokens(tail), declared, store);
    if before == "" {
      NothingEscaped(tail);
      PrefixedNothing(rest);
    } else if Opens(before) {
      OpeningInFront(before, tail);
      EscapedInFront(before[2..], tail, declared, store);
      ValuesOfFirst(Opening, Tokens(Escape(before[2..]) + tail), declared, store);
      FetchedFirst(Opening, Tokens(Escape(before[2..]) + tail), declared, store);
      PrefixedTwice("${", before[2..], rest);
      assert "${" + before[2..] == before;
    } else {
      LiteralInFront(before, tail);
      EscapedInFront(before[1..], tail, declared, store);
      ValuesOfFirst(Literal(before[0]), Tokens(Escape(before[1..]) + tail), declared, store);
      FetchedFirst(Literal(before[0]), Tokens(Escape(before[1..]) + tail), declared, store);
      PrefixedTwice([before[0]], before[1..], rest);
      assert [before[0]] + before[1..] == before;
    }
  }

  /** A placeholder at the front is fetched, and its value is inserted verbatim and never read again. */
  lemma PlaceholderFirst(name: string, after: string, declared: seq<string>, store: map<string, string>)
    requires IsName(name) && name in declared && name in store
    ensures var tokens := Tokens("${" + Prefix + name + "}" + Escape(after));
      Values(tokens, declared, store) == Success(store[name] + after) && Fetched(tokens, declared, store) == [name]
  {
    PlaceholderToken(name, Escape(after));
    NamedExpression(name);
    ValuesOfFirst(Expression(Prefix + name), Tokens(Escape(after)), declared, store);
    FetchedFirst(Expression(Prefix + name), Tokens(Escape(after)), declared, store);
    EscapedTokens(after, declared, store);
  }

  lemma NamedExpression(name: string)
    requires IsName(name)
    ensures NameOf(Prefix + name) == Success(name)
  {
    var inner := Prefix + name;
    assert inner[..|Prefix|] == Prefix && inner[|Prefix|..] == name;
  }

  lemma PlaceholderToken(name: string, rest: string)
    requires IsName(name)
    ensures Tokens("${" + Prefix + name + "}" + rest) == [Expression(Prefix + name)] + Tokens(rest)
  {
    hide Tokens, Closing, IsName;
    var inner := Prefix + name;
    var tail := "${" + Prefix + name + "}" + rest;
    assert tail[0] == '$' && tail[1] == '{';
    assert tail[2..] == inner + "}" + rest;
    NoBraceInside(name);
    ClosingAfter(inner, rest);
    assert tail[2..2 + |inner|] == inner && tail[2 + |inner| + 1..] == rest;
    FirstThenRest(tail);
  }

  lemma NoBraceInside(name: string)
    requires IsName(name)
    ensures forall k :: 0 <= k < |Prefix + name| ==> (Prefix + name)[k] != '}'
  {
    assert forall k :: 0 <= k < |Prefix| ==> Prefix[k] != '}';
  }

  lemma {:induction false} ClosingAfter(inner: string, rest: string)
    requires forall k :: 0 <= k < |inner| ==> inner[k] != '}'
    ensures Closing(inner + "}" + rest) == |inner|
  {
    var p := Closing(inner + "}" + rest);
    var all := inner + "}" + rest;
    assert all[|inner|] == '}';
    assert forall k :: 0 <= k < |inner| ==> all[k] == inner[k];
  }

  lemma PlainBeforePlaceholder(before: string, tail: string)
    requires before != "" && !Opens(before) && Apart(before, tail)
    ensures !Opens(Escape(before) + tail) && !Escapes(Escape(before) + tail)
  {
    hide Escape;
    EscapeStart(before);
  }

  /** Behind a `$`, what opens an expression reads as an escape and stays in the text. */
  lemma DollarEscapes(before: string, rest: string, declared: seq<string>, store: map<string, string>)
    ensures var tokens := Tokens(Escape(before) + ("$" + "${" + rest));
      && Values(tokens, declared, store) == Prefixed(before + "${", Values(Tokens(rest), declared, store))
      && Fetched(tokens, declared, store) == Fetched(Tokens(rest), declared, store)
  {
    var tail := "$" + "${" + rest;
    assert tail[..3] == "$${" && tail[3..] == rest && tail[..2] == "$$";
    EscapedInFront(before, tail, declared, store);
    ValuesOfFirst(Opening, Tokens(rest), declared, store);
    FetchedFirst(Opening, Tokens(rest), declared, store);
    PrefixedTwice(before, "${", Values(Tokens(rest), declared, store));
  }

  /** Escaping changes nothing in a text without `$`. */
  lemma {:induction false} EscapePlain(plain: string, after: string)
    requires forall k :: 0 <= k < |plain| ==> plain[k] != '$'
    ensures Escape(plain + after) == plain + Escape(after)
    decreases |plain|
  {
    if plain == "" {
      assert plain + after == after && plain + Escape(after) == Escape(after);
    } else {
      EscapePlain(plain[1..], after);
      assert (plain + after)[1..] == plain[1..] + after;
      assert [plain[0]] + (plain[1..] + Escape(after)) == plain + Escape(after);
    }
  }

  predicate EndsInDollar(s: string) {
    s != "" && s[|s| - 1] == '$'
  }

  lemma OpensAsBefore(before: string)
    ensures before != "" ==> (Opens(before + "$") <==> Opens(before))
    ensures Opens(before) ==> |before| >= 2
  {
  }

  lemma DollarAlone()
    ensures !Opens("$")
  {
  }

  lemma EscapeDollar(before: string)
    ensures Escape(before + "$") == Escape(before) + "$"
    decreases |before|
  {
    hide Opens;
    OpensAsBefore(before);
    if before == "" {
      DollarAlone();
      assert before + "$" == "$";
    } else if Opens(before) {
      EscapeDollar(before[2..]);
      assert (before + "$")[2..] == before[2..] + "$";
    } else {
      EscapeDollar(before[1..]);
      assert (before + "$")[1..] == before[1..] + "$";
    }
  }

  lemma Associate(a: string, b: string, c: string)
    ensures a + (b + c) == a + b + c
  {
  }

  lemma DollarInFront(before: string, tail: string)
    requires EndsInDollar(before)
    ensures Escape(before) + tail == Escape(before[..|before| - 1]) + ("$" + tail)
  {
    hide Escape;
    var front := before[..|before| - 1];
    assert before == front + "$";
    EscapeDollar(front);
    Associate(Escape(front), "$", tail);
  }

  lemma DollarSwallowsPlaceholder(before: string, inner: string, after: string, declared: seq<string>,
      store: map<string, string>)
    requires EndsInDollar(before) && forall k :: 0 <= k < |inner| ==> inner[k] != '$'
    ensures var value := Escape(before) + ("${" + (inner + Escape(after)));
      && Resolved(value, declared, store) == Success(before[..|before| - 1] + "${" + (inner + after))
      && Fetched(Tokens(value), declared, store) == []
  {
    hide Escape, Tokens, Values, Fetched;
    DollarInFront(before, "${" + (inner + Escape(after)));
    Associate("$", "${", inner + Escape(after));
    DollarEscapes(before[..|before| - 1], inner + Escape(after), declared, store);
    EscapePlain(inner, after);
    EscapedTokens(inner + after, declared, store);
  }

  lemma OneExpression(name: string, rest: string)
    ensures "${" + (Prefix + name + "}" + rest) == "${" + Prefix + name + "}" + rest
  {
    Associate("${", Prefix + name + "}", rest);
    Associate("${", Prefix + name, "}");
    Associate("${", Prefix, name);
  }

  /**
   One placeholder of a declared and stored credential between two escaped texts. It is fetched, and its value
   inserted verbatim, exactly when the text in front of it does not end in `$`; otherwise that `$` and the
   placeholder read as an escape, nothing is fetched, and the expression itself is left in the text.
   */
  lemma PlaceholderIsVerbatim(before: string, name: string, after: string, declared: seq<string>,
      store: map<string, string>)
    requires SpellsName(name) && name in declared && name in store
    ensures var value := Escape(before) + ("${" + "credentials." + name + "}" + Escape(after));
      && Resolved(value, declared, store) ==
           (if EndsInDollar(before) then Success(before[..|before| - 1] + ("${" + "credentials." + name + "}" + after))
            else Success(before + (store[name] + after)))
      && Fetched(Tokens(value), declared, store) == (if EndsInDollar(before) then [] else [name])
  {
    hide Escape, Tokens, Values, Fetched;
    NamesAreSpelled(name);
    if EndsInDollar(before) {
      var inner := Prefix + name + "}";
      assert forall k :: 0 <= k < |Prefix| ==> Prefix[k] != '$';
      DollarSwallowsPlaceholder(before, inner, after, declared, store);
      OneExpression(name, Escape(after));
      OneExpression(name, after);
      Associate(before[..|before| - 1], "${", inner + after);
    } else {
      PlaceholderFirst(name, after, declared, store);
      EscapedInFront(before, "${" + Prefix + name + "}" + Escape(after), declared, store);
    }
  }

  // ---------------------------------------------------------------------------
  // The scanner

  /** What one turn of the scan, over one token, adds to the text and to the fetches. */
  lemma OneTurn(s: string, t: Token, rest: string, parts: string, declared: seq<string>, store: map<string, string>)
    requires Tokens(s) == [t] + Tokens(rest)
    ensures Prefixed(parts, Values(Tokens(s), declared, store)) ==
      if Value(t, declared, store).Failure? then Value(t, declared, store)
      else Prefixed(parts + Value(t, declared, store).value, Values(Tokens(rest), declared, store))
    ensures Fetched(Tokens(s), declared, store) ==
      FetchedBy(t, declared) + if Value(t, declared, store).Success? then Fetched(Tokens(rest), declared, store) else []
  {
    hide Tokens, Values, Fetched, Value, FetchedBy;
    ValuesOfFirst(t, Tokens(rest), declared, store);
    FetchedFirst(t, Tokens(rest), declared, store);
    if Value(t, declared, store).Success? {
      PrefixedTwice(parts, Value(t, declared, store).value, Values(Tokens(rest), declared, store));
    }
  }

  lemma OpeningAt(value: string, i: nat)
    requires i < |value| && Escapes(value[i..])
    ensures FirstToken(value[i..]) == (Opening, value[i + 3..])
  {
    assert value[i..][3..] == value[i + 3..];
  }

  lemma ExpressionAt(value: string, i: nat)
    requires i < |value| && Opens(value[i..]) && !Escapes(value[i..])
    ensures var p := Closing(value[i + 2..]);
      FirstToken(value[i..]) ==
        if p == |value[i + 2..]| then (Open(value[i + 2..]), "")
        else (Expression(value[i + 2..i + 2 + p]), value[i + 2 + p + 1..])
  {
    assert value[i..][2..] == value[i + 2..];
    var p := Closing(value[i + 2..]);
    if p < |value[i + 2..]| {
      assert value[i..][2..2 + p] == value[i + 2..i + 2 + p] && value[i..][2 + p + 1..] == value[i + 2 + p + 1..];
    }
  }

  lemma LiteralAt(value: string, i: nat)
    requires i < |value| && !Opens(value[i..]) && !Escapes(value[i..])
    ensures FirstToken(value[i..]) == (Literal(value[i]), value[i + 1..])
  {
    assert value[i..][1..] == value[i + 1..];
  }

  lemma NothingLeft(parts: string, declared: seq<string>, store: map<string, string>)
    ensures Prefixed(parts, Values(Tokens(""), declared, store)) == Success(parts)
    ensures Fetched(Tokens(""), declared, store) == []
  {
    assert parts + "" == parts;
  }

  /** The credential one token fetches, if any. */
  function FetchedBy(t: Token, declared: seq<string>): seq<string> {
    if t.Expression? && NameOf(t.text).Success? && NameOf(t.text).value in declared then [NameOf(t.text).value] else []
  }

  class Resolver {
    const store: map<string, string>
    var fetched: seq<string>

    constructor (store: map<string, string>)
      ensures this.store == store && fetched == []
    {
      this.store := store;
      fetched := [];
    }

    method ResolveOne(expression: string, declared: seq<string>) returns (r: Result<string, ResolveError>)
      modifies `fetched
      ensures r == ResolveExpression(expression, declared, store) && Answers(expression, declared, store, r)
      ensures fetched == old(fetched) + FetchedBy(Expression(expression), declared)
    {
      ExpressionExactlyWhen(expression, declared, store);
      var name := NameOf(expression);
      if name.Failure? { return Failure(name.error); }
      if name.value !in declared { return Failure(Undeclared(name.value)); }
      fetched := fetched + [name.value];
      if name.value !in store { return Failure(Unavailable(name.value)); }
      return Success(store[name.value]);
    }

    /** `resolveString`: one pass over the value; what it fetches is what the tokens say. */
    method ResolveString(value: string, declared: seq<string>) returns (r: Result<string, ResolveError>)
      modifies `fetched
      ensures r == Resolved(value, declared, store)
      ensures fetched == old(fetched) + Fetched(Tokens(value), declared, store)
    {
      hide Tokens, Values, Fetched, NameOf, Closing, Prefixed, Answers, ResolveExpression, FirstToken;
      var parts := "";
      var i := 0;
      assert value[0..] == value;
      PrefixedNothing(Resolved(value, declared, store));
      while i < |value|
        invariant 0 <= i <= |value|
        invariant Resolved(value, declared, store) == Prefixed(parts, Values(Tokens(value[i..]), declared, store))
        invariant fetched + Fetched(Tokens(value[i..]), declared, store)
          == old(fetched) + Fetched(Tokens(value), declared, store)
      {
        FirstThenRest(value[i..]);
        OneTurn(value[i..], FirstToken(value[i..]).0, FirstToken(value[i..]).1, parts, declared, store);
        if Escapes(value[i..]) {
          OpeningAt(value, i);
          parts := parts + "${";
          i := i + 3;
        } else if Opens(value[i..]) {
          ExpressionAt(value, i);
          var p := Closing(value[i + 2..]);
          if p == |value[i + 2..]| { return Failure(Unterminated); }
          var resolved := ResolveOne(value[i + 2..i + 2 + p], declared);
          if resolved.Failure? { return resolved; }
          parts := parts + resolved.value;
          i := i + 2 + p + 1;
        } else {
          LiteralAt(value, i);
          parts := parts + [value[i]];
          i := i + 1;
        }
      }
      assert value[i..] == "" && parts + "" == parts;
      NothingLeft(parts, declared, store);
      return Success(parts);
    }

    /** `resolveHeaders`: every header value resolved under its own name, or the first error. */
    method ResolveHeaders(headers: seq<(string, string)>, declared: seq<string>)
        returns (r: Result<map<string, string>, ResolveError>)
      requires forall i, j :: 0 <= i < j < |headers| ==> headers[i].0 != headers[j].0
      modifies `fetched
      ensures r.Success? <==> forall k :: 0 <= k < |headers| ==> Resolved(headers[k].1, declared, store).Success?
      ensures r.Success? ==> r.value.Keys == set k | 0 <= k < |headers| :: headers[k].0
      ensures r.Success? ==> forall k :: 0 <= k < |headers| ==>
        headers[k].0 in r.value && Success(r.value[headers[k].0]) == Resolved(headers[k].1, declared, store)
    {
      var resolved: map<string, string> := map[];
      for n := 0 to |headers|
        invariant resolved.Keys == set k | 0 <= k < n :: headers[k].0
        invariant forall k :: 0 <= k < n ==>
          headers[k].0 in resolved && Success(resolved[headers[k].0]) == Resolved(headers[k].1, declared, store)
      {
        var value := ResolveString(headers[n].1, declared);
        if value.Failure? { return Failure(value.error); }
        resolved := resolved[headers[n].0 := value.value];
      }
      return Success(resolved);
    }
  }
}
