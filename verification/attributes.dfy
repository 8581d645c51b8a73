/**
 * The attribute parser of the derive macro (`AttributeInfo::new`): a field attribute whose first
 * token tree is a group holding exactly `ident = literal` becomes a tag and a value; every other
 * attribute is dropped without an error.
 */
module Attributes {

  import opened Wrappers
  import opened Syntax

  /** A parsed attribute: the first path segment (normally `builder`), the tag (`each`) and the
      literal's text with its quote characters removed. */
  datatype AttributeInfo = AttributeInfo(ident: string, tag: string, value: string)

  /** `text.replace("\"", "")`: every double-quote character removed, the rest kept in order. */
  function StripQuotes(text: string): (r: string)
    ensures '"' !in r
    ensures |r| <= |text|
    ensures forall c :: c != '"' ==> multiset(r)[c] == multiset(text)[c]
  {
    if |text| == 0 then ""
    else
      assert text == [text[0]] + text[1..];
      (if text[0] == '"' then "" else [text[0]]) + StripQuotes(text[1..])
  }

  lemma {:induction false} StripQuotesAppend(a: string, b: string)
    ensures StripQuotes(a + b) == StripQuotes(a) + StripQuotes(b)
  {
    if |a| > 0 {
      assert (a + b)[1..] == a[1..] + b;
      StripQuotesAppend(a[1..], b);
    } else {
      assert a + b == b;
    }
  }

  lemma {:induction false} StripQuotesUnchanged(text: string)
    requires '"' !in text
    ensures StripQuotes(text) == text
  {
    if |text| > 0 {
      StripQuotesUnchanged(text[1..]);
    }
  }

  /** How a plain string literal `"value"` prints as token text. */
  function StringLiteral(value: string): string
  {
    "\"" + value + "\""
  }

  /** Removing the quotes of a printed literal gives back a value that has none of its own. */
  lemma StripQuotesOfLiteral(value: string)
    requires '"' !in value
    ensures StripQuotes(StringLiteral(value)) == value
  {
    StripQuotesAppend("\"" + value, "\"");
    StripQuotesAppend("\"", value);
    StripQuotesUnchanged(value);
  }

  /** Reference description of the only attribute shape that is accepted. */
  ghost predicate IsTagValueAttribute(attr: Attribute)
  {
    && |attr.path| > 0
    && |attr.tokens| > 0
    && attr.tokens[0].Group?
    && |attr.tokens[0].stream| == 3
    && attr.tokens[0].stream[0].Ident?
    && attr.tokens[0].stream[1] == Punct('=')
    && attr.tokens[0].stream[2].Literal?
  }

  /** `AttributeInfo::new`. */
  function ParseAttribute(attr: Attribute): (r: Option<AttributeInfo>)
    ensures r.Some? <==> IsTagValueAttribute(attr)
    ensures r.Some? ==>
      && r.value.ident == attr.path[0].ident
      && r.value.tag == attr.tokens[0].stream[0].name
      && r.value.value == StripQuotes(attr.tokens[0].stream[2].text)
  {
    if |attr.path| == 0 then None
    else
      var ident := attr.path[0].ident;
      if |attr.tokens| == 0 then None
      else
        match attr.tokens[0]
        case Group(_, stream) =>
          if |stream| == 3 && stream[0].Ident? && stream[1].Punct? && stream[2].Literal? then
            if stream[1].ch == '=' then
              Some(AttributeInfo(ident, stream[0].name, StripQuotes(stream[2].text)))
            else None
          else None
        case _ => None
  }

  /** `#[name(tag = "value")]` as the compiler hands it over. */
  function TagValueAttribute(name: string, tag: string, value: string): Attribute
  {
    Attribute([PathSegment(name, NoArguments)],
              [Group(Parenthesis, [Ident(tag), Punct('='), Literal(StringLiteral(value))])])
  }

  /** Parsing a written `#[name(tag = "value")]` gives back its parts. */
  lemma ParseTagValue(name: string, tag: string, value: string)
    requires '"' !in value
    ensures ParseAttribute(TagValueAttribute(name, tag, value)) == Some(AttributeInfo(name, tag, value))
  {
    StripQuotesOfLiteral(value);
  }

  /** Only the first token tree is read; whatever follows it is ignored. */
  lemma TrailingTokensIgnored(path: seq<PathSegment>, first: TokenTree, more: seq<TokenTree>)
    ensures ParseAttribute(Attribute(path, [first] + more)) == ParseAttribute(Attribute(path, [first]))
  {
  }

  /** Malformed shapes are dropped: a missing `=`, another punctuation, an extra token, a
      non-literal value, a first token that is not a group, an attribute with no tokens. */
  lemma MalformedDropped(path: seq<PathSegment>, d: Delimiter, tag: string, lit: string, c: char,
                         extra: TokenTree, other: string)
    requires c != '='
    ensures ParseAttribute(Attribute(path, [Group(d, [Ident(tag), Literal(lit)])])) == None
    ensures ParseAttribute(Attribute(path, [Group(d, [Ident(tag), Punct(c), Literal(lit)])])) == None
    ensures ParseAttribute(Attribute(path, [Group(d, [Ident(tag), Punct('='), Literal(lit), extra])])) == None
    ensures ParseAttribute(Attribute(path, [Group(d, [Ident(tag), Punct('='), Ident(other)])])) == None
    ensures ParseAttribute(Attribute(path, [Ident(tag)])) == None
    ensures ParseAttribute(Attribute(path, [])) == None
  {
  }
}
