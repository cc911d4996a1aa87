/**
 * Model of the Shrink The Web template tags: a node that merges site-wide
 * default options with the options of one tag, validates them and renders an
 * `<img>` element pointing at the screenshot service, and the two parsers
 * that turn a tag's tokens into such a node.
 *
 * The host framework is reduced to parameters: the site-wide defaults are an
 * `Options` value, the template-context lookup is a `Lookup` function and the
 * query-string encoder is an `Encoder` function.
 */
module ShrinkTheWebTags {
  import opened Wrappers
  import opened PyStrings

  /** An option value: the site-wide defaults hold integers or strings, tag keywords give strings. */
  datatype Value = IntV(i: int) | StrV(s: string)

  /** An option dictionary, keyed by option name. */
  type Options = map<string, Value>

  /** The exceptions the module raises or lets through. */
  datatype Error =
    | ConfigError(msg: string)            // STWConfigError, a subclass of TemplateSyntaxError
    | TemplateSyntaxError(msg: string)
    | ValueError                          // unpacking `key, value = bit.split("=")` failed
    | VariableDoesNotExist(path: string)  // what the context lookup raises for an unknown path

  /** `except TemplateSyntaxError` catches both kinds, because STWConfigError subclasses it. */
  predicate IsTemplateSyntaxError(e: Error) {
    e.ConfigError? || e.TemplateSyntaxError?
  }

  /** Resolution of a variable path against the template context. */
  type Lookup = string -> Result<string, Error>

  /** The query-string encoder applied to the finished option dictionary. */
  type Encoder = Options -> string

  const EmbedKey := "stwembed"
  const AccessKey := "stwaccesskeyid"
  const SizeKey := "stwsize"
  const XMaxKey := "stwxmax"
  const YMaxKey := "stwymax"
  const FullKey := "stwfull"

  /** The prefix every keyword of the `stwimage` tag must carry. */
  const KeywordPrefix := "stw"

  const MissingAccessKeyMessage := "'stwaccesskeyid' must be defined in settings.SHRINK_THE_WEB"
  const SizeConflictMessage :=
    "'stwimage' tag does not allow 'stwsize' and ('stwfull' or ('stwxmax' and/or 'stwymax')) keyword(s)"
  const SizeMissingMessage :=
    "'stwimage' tag requires 'stwsize' or ('stwfull' or ('stwxmax' and/or 'stwymax')) keyword(s)"

  const ImgPrefix := "<img src=\"http://images.shrinktheweb.com/xino.php?"

  // ---------------------------------------------------------------------------
  // Option merging

  /** `base.update(top)`: every key of both, the value of `top` where both have one. */
  function Overlay(base: Options, top: Options): (r: Options)
    ensures r.Keys == base.Keys + top.Keys
    ensures forall k :: k in top ==> r[k] == top[k]
    ensures forall k :: k in base && k !in top ==> r[k] == base[k]
  {
    base + top
  }

  /** A Python dict, shared by reference between its holders. */
  class OptionDict {
    var items: Options

    constructor (init: Options)
      ensures items == init
    {
      items := init;
    }

    /** `dict.update(other)` */
    method Update(other: Options)
      modifies this
      ensures items == Overlay(old(items), other)
    {
      items := items + other;
    }
  }

  // ---------------------------------------------------------------------------
  // Option validation

  /** The dictionary after `stwembed` has been given its default of 1 when it was absent. */
  function WithEmbedDefault(m: Options): (r: Options)
    ensures r.Keys == m.Keys + {EmbedKey}
    ensures forall k :: k in m ==> r[k] == m[k]
    ensures EmbedKey !in m ==> r[EmbedKey] == IntV(1)
  {
    if EmbedKey in m then m else m[EmbedKey := IntV(1)]
  }

  /** One of the bounding options (`stwxmax`, `stwymax`, `stwfull`) is present. */
  predicate HasBound(m: Options) {
    XMaxKey in m || YMaxKey in m || FullKey in m
  }

  /** The sizing rule: `stwsize` alone, or no `stwsize` and at least one bounding option. */
  predicate SizingChosen(m: Options) {
    (SizeKey in m) != HasBound(m)
  }

  /**
   * What `_buildUrlParams` returns or raises for a dictionary holding `m`.
   * The access key is checked before the sizing rule.
   */
  function UrlParams(m: Options): (r: Result<Options, Error>)
    ensures AccessKey !in m ==> r == Failure(ConfigError(MissingAccessKeyMessage))
    ensures AccessKey in m ==> (r.Success? <==> SizingChosen(m))
    ensures AccessKey in m && SizeKey in m && HasBound(m) ==>
              r == Failure(TemplateSyntaxError(SizeConflictMessage))
    ensures AccessKey in m && SizeKey !in m && !HasBound(m) ==>
              r == Failure(TemplateSyntaxError(SizeMissingMessage))
    ensures r.Success? ==> r.value == WithEmbedDefault(m)
    ensures r.Failure? ==> IsTemplateSyntaxError(r.error)
  {
    var params := WithEmbedDefault(m);
    if AccessKey !in params then
      Failure(ConfigError(MissingAccessKeyMessage))
    else if SizeKey in params then
      if XMaxKey in params || YMaxKey in params || FullKey in params then
        Failure(TemplateSyntaxError(SizeConflictMessage))
      else
        Success(params)
    else if XMaxKey !in params && YMaxKey !in params && FullKey !in params then
      Failure(TemplateSyntaxError(SizeMissingMessage))
    else
      Success(params)
  }

  /** Defaulting `stwembed` beforehand changes nothing that `_buildUrlParams` decides. */
  lemma UrlParamsAfterEmbedDefault(m: Options)
    ensures UrlParams(WithEmbedDefault(m)) == UrlParams(m)
  {
    var d := WithEmbedDefault(m);
    assert WithEmbedDefault(d) == d;
    assert (AccessKey in d) == (AccessKey in m);
    assert SizingChosen(d) == SizingChosen(m);
  }

  /** Validating the output of a successful validation again returns it unchanged. */
  lemma UrlParamsIdempotent(m: Options)
    requires UrlParams(m).Success?
    ensures UrlParams(UrlParams(m).value) == UrlParams(m)
  {
    UrlParamsAfterEmbedDefault(m);
  }

  /** A successful result holds the access key, `stwembed` and a sizing option, whatever the input. */
  lemma UrlParamsSuccessKeys(m: Options)
    requires UrlParams(m).Success?
    ensures {AccessKey, EmbedKey} <= UrlParams(m).value.Keys
    ensures SizeKey in UrlParams(m).value || HasBound(UrlParams(m).value)
    ensures |UrlParams(m).value| >= 3
  {
    var r := UrlParams(m).value;
    var sizing := if SizeKey in r then SizeKey else if XMaxKey in r then XMaxKey
                  else if YMaxKey in r then YMaxKey else FullKey;
    assert {AccessKey, EmbedKey, sizing} <= r.Keys;
    assert |{AccessKey, EmbedKey, sizing}| == 3;
    SubsetCard({AccessKey, EmbedKey, sizing}, r.Keys);
  }

  lemma SubsetCard<T>(a: set<T>, b: set<T>)
    requires a <= b
    ensures |a| <= |b|
  {
    assert b == a + (b - a);
  }

  /** Bounding options may be combined: `stwxmax` together with `stwfull` is accepted. */
  lemma BoundsCombine()
    ensures UrlParams(map[AccessKey := StrV("key"), XMaxKey := IntV(100), FullKey := IntV(1)]).Success?
  {
  }

  /** The unit test without `stwembed`: the default 1 is added. */
  lemma UrlParamsAddsEmbed()
    ensures UrlParams(map[AccessKey := StrV("key"), SizeKey := StrV("lrg")])
            == Success(map[AccessKey := StrV("key"), EmbedKey := IntV(1), SizeKey := StrV("lrg")])
  {
    var m := map[AccessKey := StrV("key"), SizeKey := StrV("lrg")];
    assert EmbedKey !in m;
    assert m[EmbedKey := IntV(1)] == map[AccessKey := StrV("key"), EmbedKey := IntV(1), SizeKey := StrV("lrg")];
  }

  /** The unit test with an explicit `stwembed` of 0: the dictionary is returned unchanged. */
  lemma UrlParamsKeepsEmbed()
    ensures UrlParams(map[AccessKey := StrV("key"), EmbedKey := IntV(0), XMaxKey := IntV(100)])
            == Success(map[AccessKey := StrV("key"), EmbedKey := IntV(0), XMaxKey := IntV(100)])
  {
  }

  /** The refused dictionaries of the unit tests, each with the error it raises. */
  lemma UrlParamsRefusals()
    ensures UrlParams(map[]) == Failure(ConfigError(MissingAccessKeyMessage))
    ensures UrlParams(map[AccessKey := StrV("key")]) == Failure(TemplateSyntaxError(SizeMissingMessage))
    ensures UrlParams(map[AccessKey := StrV("key"), SizeKey := StrV("lrg"), FullKey := IntV(1)])
            == Failure(TemplateSyntaxError(SizeConflictMessage))
  {
  }

  // ---------------------------------------------------------------------------
  // Argument classification and output

  /** A token enclosed in a matching pair of `"` or `'`. */
  predicate IsQuoted(v: string) {
    |v| > 0 && v[0] == v[|v| - 1] && (v[0] == '"' || v[0] == '\'')
  }

  /** Quoting a text and stripping the quotes again gives the text back. */
  lemma QuoteRoundTrip(s: string, q: char)
    requires q == '"' || q == '\''
    ensures IsQuoted([q] + s + [q])
    ensures Inner([q] + s + [q]) == s
  {
    var t := [q] + s + [q];
    assert t[1..|t| - 1] == s;
  }

  /** The text after the fixed prefix: the encoded options followed by `&`, or nothing. */
  function QueryPart(encoded: string): (r: string)
    ensures |r| == if encoded == "" then 0 else |encoded| + 1
    ensures encoded != "" ==> r[..|encoded|] == encoded && r[|encoded|] == '&'
  {
    if encoded == "" then "" else encoded + "&"
  }

  /** The `<img>` element, with `query` (already ending in `&` when non-empty), url and alt unescaped. */
  function ImgTag(query: string, url: string, alt: string): (r: string)
    ensures |r| == |ImgPrefix| + |query| + |url| + |alt| + 17
    ensures r[..|ImgPrefix|] == ImgPrefix
  {
    ImgPrefix + query + "stwurl=" + url + "\" alt=\"" + alt + "\"/>"
  }

  /**
   * The layout of the rendered element: the fixed prefix, the encoded options
   * and `&` only when there are any, `stwurl=` and the url verbatim, then the
   * alt text verbatim.
   */
  lemma ImgTagLayout(encoded: string, url: string, alt: string)
    ensures var t := ImgTag(QueryPart(encoded), url, alt);
            var q := |ImgPrefix| + (if encoded == "" then 0 else |encoded| + 1);
            && t[..|ImgPrefix|] == ImgPrefix
            && t[|ImgPrefix|..q] == QueryPart(encoded)
            && t[q..q + 7] == "stwurl="
            && t[q + 7..q + 7 + |url|] == url
            && t[q + 7 + |url|..] == "\" alt=\"" + alt + "\"/>"
  {
    var query := QueryPart(encoded);
    var t := ImgTag(query, url, alt);
    var p := |ImgPrefix|;
    var q := p + |query|;
    var tail := "\" alt=\"" + alt + "\"/>";
    assert t == ImgPrefix + query + "stwurl=" + url + tail;
    assert t[p..q] == query;
    assert t[q..q + 7] == "stwurl=";
    assert t[q + 7..q + 7 + |url|] == url;
    assert t[q + 7 + |url|..] == tail;
  }

  /** The rendered string the module's unit tests expect when the encoded options are empty. */
  lemma ImgTagWithoutOptions()
    ensures ImgTag(QueryPart(""), "url", "alt")
            == "<img src=\"http://images.shrinktheweb.com/xino.php?stwurl=url\" alt=\"alt\"/>"
  {
  }

  /** The rendered string the module's unit tests expect for the encoded options `kwarg=kwargvalue`. */
  lemma ImgTagWithOptions()
    ensures ImgTag(QueryPart("kwarg=kwargvalue"), "url", "alt")
            == ImgPrefix + "kwarg=kwargvalue&stwurl=url\" alt=\"alt\"/>"
  {
    assert QueryPart("kwarg=kwargvalue") == "kwarg=kwargvalue&";
  }

  // ---------------------------------------------------------------------------
  // The node

  /**
   * What `render` returns or raises for a node with arguments `url`, `alt` and
   * the option dictionary holding `options`.
   */
  function RenderOutput(url: string, alt: string, options: Options, lookup: Lookup, encode: Encoder)
    : (r: Result<string, Error>)
    requires |url| > 0 && |alt| > 0
    ensures FormatSTWImageNode.Resolve(url, lookup).Failure? ==>
              r == Failure(FormatSTWImageNode.Resolve(url, lookup).error)
    ensures FormatSTWImageNode.Resolve(url, lookup).Success? && FormatSTWImageNode.Resolve(alt, lookup).Failure? ==>
              r == Failure(FormatSTWImageNode.Resolve(alt, lookup).error)
    ensures r.Success? <==>
              && FormatSTWImageNode.Resolve(url, lookup).Success?
              && FormatSTWImageNode.Resolve(alt, lookup).Success?
              && UrlParams(options).Success?
  {
    var u :- FormatSTWImageNode.Resolve(url, lookup);
    var a :- FormatSTWImageNode.Resolve(alt, lookup);
    var params :- UrlParams(options);
    Success(ImgTag(QueryPart(encode(params)), u, a))
  }

  /**
   * Rendering needs the access key: once url and alt resolve, a node without
   * it raises the configuration error; with it and a valid sizing choice the
   * result is the element built from the defaulted options.
   */
  lemma RenderOutcome(url: string, alt: string, options: Options, lookup: Lookup, encode: Encoder)
    requires |url| > 0 && |alt| > 0
    requires FormatSTWImageNode.Resolve(url, lookup).Success?
    requires FormatSTWImageNode.Resolve(alt, lookup).Success?
    ensures AccessKey !in options ==>
              RenderOutput(url, alt, options, lookup, encode) == Failure(ConfigError(MissingAccessKeyMessage))
    ensures AccessKey in options && SizingChosen(options) ==>
              RenderOutput(url, alt, options, lookup, encode)
              == Success(ImgTag(QueryPart(encode(WithEmbedDefault(options))),
                                FormatSTWImageNode.Resolve(url, lookup).value,
                                FormatSTWImageNode.Resolve(alt, lookup).value))
    ensures AccessKey in options && !SizingChosen(options) ==>
              RenderOutput(url, alt, options, lookup, encode).Failure? &&
              RenderOutput(url, alt, options, lookup, encode).error.TemplateSyntaxError?
  {
  }

  /** Rendering again after a render has defaulted `stwembed` in place gives the same output. */
  lemma RenderRepeatable(url: string, alt: string, options: Options, lookup: Lookup, encode: Encoder)
    requires |url| > 0 && |alt| > 0
    ensures RenderOutput(url, alt, WithEmbedDefault(options), lookup, encode)
            == RenderOutput(url, alt, options, lookup, encode)
  {
    UrlParamsAfterEmbedDefault(options);
  }

  class FormatSTWImageNode {
    /** The option dictionary; `render` updates it in place. */
    const kwargs: OptionDict
    const url: string
    const alt: string

    /** The site-wide defaults first, then the tag's own options, which win on a shared key. */
    constructor (url: string, alt: string, callOptions: Options, defaults: Options)
      ensures this.url == url && this.alt == alt && fresh(kwargs)
      ensures kwargs.items.Keys == defaults.Keys + callOptions.Keys
      ensures forall k :: k in callOptions ==> kwargs.items[k] == callOptions[k]
      ensures forall k :: k in defaults && k !in callOptions ==> kwargs.items[k] == defaults[k]
    {
      var params := new OptionDict(map[]);
      params.Update(defaults);
      params.Update(callOptions);
      kwargs := params;
      this.url := url;
      this.alt := alt;
    }

    /**
     * `_buildUrlParams`: defaults `stwembed` in the caller's dictionary, then
     * checks the access key and the sizing rule. The dictionary keeps the
     * default even when an error is raised.
     */
    static method BuildUrlParams(kwargs: OptionDict) returns (r: Result<Options, Error>)
      modifies kwargs
      ensures kwargs.items == WithEmbedDefault(old(kwargs.items))
      ensures r == UrlParams(old(kwargs.items))
      ensures r.Success? ==> r.value == kwargs.items
    {
      if EmbedKey !in kwargs.items {
        kwargs.items := kwargs.items[EmbedKey := IntV(1)];
      }
      if AccessKey !in kwargs.items {
        return Failure(ConfigError(MissingAccessKeyMessage));
      }
      if SizeKey in kwargs.items {
        if XMaxKey in kwargs.items || YMaxKey in kwargs.items || FullKey in kwargs.items {
          return Failure(TemplateSyntaxError(SizeConflictMessage));
        }
      } else if XMaxKey !in kwargs.items && YMaxKey !in kwargs.items && FullKey !in kwargs.items {
        return Failure(TemplateSyntaxError(SizeMissingMessage));
      }
      return Success(kwargs.items);
    }

    /**
     * `_resolve`: a quoted token stands for the text between its quotes,
     * anything else is a variable path looked up in the context.
     */
    static function Resolve(v: string, lookup: Lookup): (r: Result<string, Error>)
      requires |v| > 0
      ensures IsQuoted(v) ==> r == Success(Inner(v))
      ensures !IsQuoted(v) ==> r == lookup(v)
    {
      if v[0] == v[|v| - 1] && (v[0] == '"' || v[0] == '\'') then
        Success(if |v| >= 2 then v[1..|v| - 1] else "")
      else
        lookup(v)
    }

    /** `render`: resolves url and alt, validates the options in place and formats the element. */
    method Render(lookup: Lookup, encode: Encoder) returns (r: Result<string, Error>)
      requires |url| > 0 && |alt| > 0
      modifies kwargs
      ensures r == RenderOutput(url, alt, old(kwargs.items), lookup, encode)
      ensures kwargs.items == if Resolve(url, lookup).Success? && Resolve(alt, lookup).Success?
                              then WithEmbedDefault(old(kwargs.items))
                              else old(kwargs.items)
    {
      var u :- Resolve(url, lookup);
      var a :- Resolve(alt, lookup);
      var params :- BuildUrlParams(kwargs);
      var encoded := encode(params);
      if encoded != "" {
        encoded := encoded + "&";
      }
      r := Success(ImgTag(encoded, u, a));
    }
  }

  /** A quoted literal resolves to its text, whatever the context. */
  lemma ResolveQuotedLiteral(s: string, q: char, lookup: Lookup)
    requires q == '"' || q == '\''
    ensures FormatSTWImageNode.Resolve([q] + s + [q], lookup) == Success(s)
  {
    QuoteRoundTrip(s, q);
  }

  /** Tokens with mismatched or missing quotes are variable paths: `'abc"` is looked up as it stands. */
  lemma ResolveMismatchedQuotes(lookup: Lookup)
    ensures FormatSTWImageNode.Resolve("'abc\"", lookup) == lookup("'abc\"")
    ensures FormatSTWImageNode.Resolve("\"", lookup) == Success("")
  {
  }

  // ---------------------------------------------------------------------------
  // The tag parsers

  /** The arguments a parser passes to the node's constructor. */
  datatype TagArgs = TagArgs(url: string, alt: string, options: Options)

  /** The size token without its quotes when it is quoted, as it stands otherwise. */
  function SizeOption(size: string): (r: string)
    ensures IsQuoted(size) && |size| >= 2 ==> [size[0]] + r + [size[0]] == size
    ensures IsQuoted(size) && |size| == 1 ==> r == ""
    ensures !IsQuoted(size) ==> r == size
  {
    if IsQuoted(size) then Inner(size) else size
  }

  /** `do_shrinkthewebimage`: exactly `tag url size alt`, with `stwsize` as the only option. */
  function ShrinkTheWebImageTag(bits: seq<string>): (r: Result<TagArgs, Error>)
    requires |bits| >= 1
    requires |bits| == 4 ==> bits[2] != ""
    ensures r.Success? <==> |bits| == 4
    ensures r.Failure? ==> r.error == TemplateSyntaxError("'" + bits[0] + "' tag takes exactly 3 arguments")
    ensures r.Success? ==> r.value.url == bits[1] && r.value.alt == bits[3]
    ensures r.Success? ==> r.value.options.Keys == {SizeKey}
    ensures r.Success? && IsQuoted(bits[2]) ==> r.value.options[SizeKey] == StrV(Inner(bits[2]))
    ensures r.Success? && !IsQuoted(bits[2]) ==> r.value.options[SizeKey] == StrV(bits[2])
  {
    if |bits| != 4 then
      Failure(TemplateSyntaxError("'" + bits[0] + "' tag takes exactly 3 arguments"))
    else
      Success(TagArgs(bits[1], bits[3], map[SizeKey := StrV(SizeOption(bits[2]))]))
  }

  /** A quoted size reaches the node as the text between the quotes. */
  lemma ShrinkTheWebImageQuotedSize(tag: string, url: string, size: string, q: char, alt: string)
    requires q == '"' || q == '\''
    ensures ShrinkTheWebImageTag([tag, url, [q] + size + [q], alt])
            == Success(TagArgs(url, alt, map[SizeKey := StrV(size)]))
  {
    QuoteRoundTrip(size, q);
  }

  /** The unit tests: one token is refused, `tagname url lrg alt` gives `stwsize=lrg`. */
  lemma ShrinkTheWebImageExamples()
    ensures ShrinkTheWebImageTag(["tagname"]).Failure?
    ensures ShrinkTheWebImageTag(["tagname", "url", "lrg", "alt"])
            == Success(TagArgs("url", "alt", map[SizeKey := StrV("lrg")]))
  {
  }

  function NoArgumentMessage(tag: string, key: string): string {
    "'" + tag + "' tag keyword: " + key + " has no argument"
  }

  function NotKeywordMessage(tag: string, key: string): string {
    "'" + tag + "' tag keyword: " + key + " is not a value STW keyword"
  }

  /**
   * One trailing token of `stwimage`: `key=value` with exactly one `=`, a
   * non-empty value (checked first) and a key starting with `stw`.
   */
  function KeywordOf(tag: string, bit: string): (r: Result<(string, string), Error>)
    ensures r.Success? ==> KeywordPrefix <= r.value.0 && r.value.1 != ""
  {
    var pieces := Split(bit, '=');
    if |pieces| != 2 then
      Failure(ValueError)
    else
      var key, value := pieces[0], pieces[1];
      if value == "" then
        Failure(TemplateSyntaxError(NoArgumentMessage(tag, key)))
      else if KeywordPrefix <= key then
        Success((key, value))
      else
        Failure(TemplateSyntaxError(NotKeywordMessage(tag, key)))
  }

  /** For a token `key=value` with no other `=`, the outcome in the order the tag checks it. */
  lemma KeywordOfPair(tag: string, key: string, value: string)
    requires '=' !in key && '=' !in value
    ensures KeywordOf(tag, key + "=" + value)
            == if value == "" then Failure(TemplateSyntaxError(NoArgumentMessage(tag, key)))
               else if KeywordPrefix <= key then Success((key, value))
               else Failure(TemplateSyntaxError(NotKeywordMessage(tag, key)))
  {
    SplitInTwo(key + "=" + value, '=', key, value);
  }

  /** Unpacking into key and value fails exactly when the token does not hold a single `=`. */
  lemma KeywordOfUnpack(tag: string, bit: string)
    ensures KeywordOf(tag, bit) == Failure(ValueError) <==> multiset(bit)['='] != 1
  {
    SplitCount(bit, '=');
  }

  /** A token that is accepted is exactly its key, `=` and its value. */
  lemma KeywordOfAccepted(tag: string, bit: string)
    requires KeywordOf(tag, bit).Success?
    ensures bit == KeywordOf(tag, bit).value.0 + "=" + KeywordOf(tag, bit).value.1
    ensures '=' !in KeywordOf(tag, bit).value.0 && '=' !in KeywordOf(tag, bit).value.1
  {
    var pieces := Split(bit, '=');
    SplitInTwo(bit, '=', pieces[0], pieces[1]);
  }

  /** The options gathered from the trailing tokens, the later of two equal keys winning. */
  function Keywords(tag: string, bits: seq<string>): (r: Result<Options, Error>)
    ensures bits == [] ==> r == Success(map[])
    ensures r.Success? ==> forall k :: k in r.value ==> KeywordPrefix <= k && r.value[k].StrV? && r.value[k].s != ""
    decreases |bits|
  {
    if bits == [] then
      Success(map[])
    else
      var options :- Keywords(tag, bits[..|bits| - 1]);
      var kv :- KeywordOf(tag, bits[|bits| - 1]);
      Success(options[kv.0 := StrV(kv.1)])
  }

  /** Once a prefix of the tokens fails, the whole sequence fails with the same error. */
  lemma {:induction false} KeywordsFailurePersists(tag: string, bits: seq<string>, n: nat)
    requires n <= |bits|
    ensures Keywords(tag, bits[..n]).Failure? ==> Keywords(tag, bits) == Keywords(tag, bits[..n])
    decreases |bits| - n
  {
    if n < |bits| {
      KeywordsFailurePersists(tag, bits[..|bits| - 1], n);
      assert bits[..|bits| - 1][..n] == bits[..n];
    } else {
      assert bits[..n] == bits;
    }
  }

  /** The tokens are accepted exactly when every one of them is. */
  lemma {:induction false} KeywordsSucceedIff(tag: string, bits: seq<string>)
    ensures Keywords(tag, bits).Success? <==> forall i :: 0 <= i < |bits| ==> KeywordOf(tag, bits[i]).Success?
    decreases |bits|
  {
    if bits != [] {
      var init := bits[..|bits| - 1];
      KeywordsSucceedIff(tag, init);
      assert forall i :: 0 <= i < |init| ==> init[i] == bits[i];
    }
  }

  /** The first refused token decides the error. */
  lemma {:induction false} KeywordsFirstError(tag: string, bits: seq<string>, i: nat)
    requires i < |bits| && KeywordOf(tag, bits[i]).Failure?
    requires forall j :: 0 <= j < i ==> KeywordOf(tag, bits[j]).Success?
    ensures Keywords(tag, bits) == Failure(KeywordOf(tag, bits[i]).error)
  {
    var pre := bits[..i + 1];
    KeywordsSucceedIff(tag, bits[..i]);
    assert pre[..i] == bits[..i];
    assert forall j :: 0 <= j < i ==> bits[..i][j] == bits[j];
    KeywordsFailurePersists(tag, bits, i + 1);
  }

  /** Every gathered option comes from some token, and holds a non-empty string under a `stw` key. */
  lemma {:induction false} KeywordsKeys(tag: string, bits: seq<string>)
    requires Keywords(tag, bits).Success?
    ensures forall k :: k in Keywords(tag, bits).value ==>
              && KeywordPrefix <= k
              && Keywords(tag, bits).value[k].StrV?
              && Keywords(tag, bits).value[k].s != ""
              && exists i :: 0 <= i < |bits| && KeywordOf(tag, bits[i]) == Success((k, Keywords(tag, bits).value[k].s))
    decreases |bits|
  {
    if bits != [] {
      var init := bits[..|bits| - 1];
      KeywordsKeys(tag, init);
      var m := Keywords(tag, bits).value;
      var kv := KeywordOf(tag, bits[|bits| - 1]).value;
      forall k | k in m
        ensures exists i :: 0 <= i < |bits| && KeywordOf(tag, bits[i]) == Success((k, m[k].s))
      {
        if k == kv.0 {
          assert KeywordOf(tag, bits[|bits| - 1]) == Success((k, m[k].s));
        } else {
          var i :| 0 <= i < |init| && KeywordOf(tag, init[i]) == Success((k, Keywords(tag, init).value[k].s));
          assert init[i] == bits[i];
        }
      }
    }
  }

  /** A token whose key no later token repeats sets that key to its value. */
  lemma {:induction false} KeywordsLastWins(tag: string, bits: seq<string>, i: nat)
    requires Keywords(tag, bits).Success?
    requires i < |bits| && KeywordOf(tag, bits[i]).Success?
    requires forall j :: i < j < |bits| ==>
               KeywordOf(tag, bits[j]).Success? && KeywordOf(tag, bits[j]).value.0 != KeywordOf(tag, bits[i]).value.0
    ensures KeywordOf(tag, bits[i]).value.0 in Keywords(tag, bits).value
    ensures Keywords(tag, bits).value[KeywordOf(tag, bits[i]).value.0] == StrV(KeywordOf(tag, bits[i]).value.1)
    decreases |bits|
  {
    KeywordsSucceedIff(tag, bits);
    var init := bits[..|bits| - 1];
    if i < |bits| - 1 {
      assert init[i] == bits[i];
      forall j | i < j < |init|
        ensures KeywordOf(tag, init[j]).Success? && KeywordOf(tag, init[j]).value.0 != KeywordOf(tag, init[i]).value.0
      {
        assert init[j] == bits[j];
      }
      KeywordsLastWins(tag, init, i);
    }
  }

  /** `do_stwimage` as a value: at least `tag url alt`, then the keyword tokens. */
  function StwImageTag(bits: seq<string>): (r: Result<TagArgs, Error>)
    requires |bits| >= 1
    ensures |bits| < 3 ==> r == Failure(TemplateSyntaxError("'" + bits[0] + "' tag takes at least 2 arguments"))
    ensures r.Success? ==> r.value.url == bits[1] && r.value.alt == bits[2]
    ensures |bits| == 3 ==> r == Success(TagArgs(bits[1], bits[2], map[]))
  {
    if |bits| < 3 then
      Failure(TemplateSyntaxError("'" + bits[0] + "' tag takes at least 2 arguments"))
    else
      var options :- Keywords(bits[0], bits[3..]);
      Success(TagArgs(bits[1], bits[2], options))
  }

  /** Past the three leading tokens, the tag is accepted exactly when every keyword token is. */
  lemma StwImageTagKeywords(bits: seq<string>)
    requires |bits| >= 3
    ensures StwImageTag(bits).Success? <==> forall i :: 3 <= i < |bits| ==> KeywordOf(bits[0], bits[i]).Success?
    ensures StwImageTag(bits).Success? ==> StwImageTag(bits).value.options == Keywords(bits[0], bits[3..]).value
  {
    KeywordsSucceedIff(bits[0], bits[3..]);
    assert forall i :: 3 <= i < |bits| ==> bits[3..][i - 3] == bits[i];
  }

  /** The unit tests of `stwimage`: fewer than three tokens are refused, three give no options. */
  lemma StwImageArity()
    ensures StwImageTag(["tagname"]).Failure?
    ensures StwImageTag(["stwimage", "url", "alt"]) == Success(TagArgs("url", "alt", map[]))
  {
  }

  /** The unit test with the single keyword `stwsize=lrg`. */
  lemma StwImageOneKeyword()
    ensures StwImageTag(["stwimage", "url", "alt", "stwsize=lrg"])
            == Success(TagArgs("url", "alt", map[SizeKey := StrV("lrg")]))
  {
    var bits := ["stwimage", "url", "alt", "stwsize=lrg"];
    assert "stwsize=lrg" == "stwsize" + "=" + "lrg";
    KeywordOfPair("stwimage", "stwsize", "lrg");
    assert bits[3..] == ["stwsize=lrg"];
    assert bits[3..][..0] == [];
  }

  /** The keyword tokens of the two-keyword unit test. */
  lemma KeywordsTwoTokens()
    ensures Keywords("stwimage", ["stwsize=lrg", "stwembed=1"])
            == Success(map[SizeKey := StrV("lrg"), EmbedKey := StrV("1")])
  {
    var size, embed := "stwsize=lrg", "stwembed=1";
    assert size == "stwsize" + "=" + "lrg";
    assert embed == "stwembed" + "=" + "1";
    KeywordOfPair("stwimage", "stwsize", "lrg");
    KeywordOfPair("stwimage", "stwembed", "1");
    var rest := [size, embed];
    assert rest[..1] == [size] && [size][..0] == [];
    assert Keywords("stwimage", [size]) == Success(map[SizeKey := StrV("lrg")]);
  }

  /** The unit test with two keywords; `stwembed=1` reaches the node as the string `1`. */
  lemma StwImageTwoKeywords()
    ensures StwImageTag(["stwimage", "url", "alt", "stwsize=lrg", "stwembed=1"])
            == Success(TagArgs("url", "alt", map[SizeKey := StrV("lrg"), EmbedKey := StrV("1")]))
  {
    KeywordsTwoTokens();
    var bits := ["stwimage", "url", "alt", "stwsize=lrg", "stwembed=1"];
    assert bits[3..] == ["stwsize=lrg", "stwembed=1"];
  }

  /** The unit test with the keyword `size=lrg`, which lacks the `stw` prefix. */
  lemma StwImageForeignKeyword()
    ensures StwImageTag(["stwimage", "url", "alt", "size=lrg"])
            == Failure(TemplateSyntaxError(NotKeywordMessage("stwimage", "size")))
  {
    assert "size=lrg" == "size" + "=" + "lrg";
    assert "size"[2] != KeywordPrefix[2];
    KeywordOfPair("stwimage", "size", "lrg");
    var bits := ["stwimage", "url", "alt", "size=lrg"];
    assert bits[3..] == ["size=lrg"];
    assert bits[3..][..0] == [];
  }

  /** `do_shrinkthewebimage`: parses the tokens and builds the node over the site-wide defaults. */
  method DoShrinkTheWebImage(bits: seq<string>, defaults: Options) returns (r: Result<FormatSTWImageNode, Error>)
    requires |bits| >= 1
    requires |bits| == 4 ==> bits[2] != ""
    ensures r.Failure? <==> ShrinkTheWebImageTag(bits).Failure?
    ensures r.Failure? ==> r.error == ShrinkTheWebImageTag(bits).error
    ensures r.Success? ==>
              var args := ShrinkTheWebImageTag(bits).value;
              && fresh(r.value.kwargs)
              && r.value.url == args.url && r.value.alt == args.alt
              && r.value.kwargs.items == Overlay(defaults, args.options)
  {
    if |bits| != 4 {
      return Failure(TemplateSyntaxError("'" + bits[0] + "' tag takes exactly 3 arguments"));
    }
    var kwargs := map[SizeKey := StrV(SizeOption(bits[2]))];
    var node := new FormatSTWImageNode(bits[1], bits[3], kwargs, defaults);
    return Success(node);
  }

  /** `do_stwimage`: parses the tokens, keyword by keyword, and builds the node over the defaults. */
  method DoStwImage(bits: seq<string>, defaults: Options) returns (r: Result<FormatSTWImageNode, Error>)
    requires |bits| >= 1
    ensures r.Failure? <==> StwImageTag(bits).Failure?
    ensures r.Failure? ==> r.error == StwImageTag(bits).error
    ensures r.Success? ==>
              var args := StwImageTag(bits).value;
              && fresh(r.value.kwargs)
              && r.value.url == args.url && r.value.alt == args.alt
              && r.value.kwargs.items == Overlay(defaults, args.options)
  {
    if |bits| < 3 {
      return Failure(TemplateSyntaxError("'" + bits[0] + "' tag takes at least 2 arguments"));
    }
    var kwargs: Options := map[];
    for i := 3 to |bits|
      invariant Keywords(bits[0], bits[3..i]) == Success(kwargs)
    {
      assert bits[3..i + 1][..i - 3] == bits[3..i];
      assert bits[3..][..i + 1 - 3] == bits[3..i + 1];
      KeywordsFailurePersists(bits[0], bits[3..], i + 1 - 3);
      var pieces := Split(bits[i], '=');
      if |pieces| != 2 {
        return Failure(ValueError);
      }
      var key, value := pieces[0], pieces[1];
      if value == "" {
        return Failure(TemplateSyntaxError(NoArgumentMessage(bits[0], key)));
      }
      if KeywordPrefix <= key {
        kwargs := kwargs[key := StrV(value)];
      } else {
        return Failure(TemplateSyntaxError(NotKeywordMessage(bits[0], key)));
      }
    }
    assert bits[3..|bits|] == bits[3..];
    var node := new FormatSTWImageNode(bits[1], bits[2], kwargs, defaults);
    return Success(node);
  }

  /** The merge examples of the unit tests: the tag's key overrides, a new default key is kept. */
  lemma OverlayExamples()
    ensures Overlay(map[AccessKey := StrV("key"), "stwanewkey" := StrV("newkey")],
                    map[AccessKey := StrV("overridekey")])
            == map[AccessKey := StrV("overridekey"), "stwanewkey" := StrV("newkey")]
    ensures Overlay(map["a" := IntV(1)], map["a" := IntV(2), "b" := IntV(3)])
            == map["a" := IntV(2), "b" := IntV(3)]
  {
  }
}
