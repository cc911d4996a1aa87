# django-stw template tags, modelled in Dafny

The `shrinkthewebtags` module renders an `<img>` element whose `src` asks the
Shrink The Web service for a screenshot of a page. A `FormatSTWImageNode`
holds the page url, the alt text and an option dictionary. The constructor
builds that dictionary from the site-wide defaults and the tag's own options.
`render` resolves url and alt against the template context, validates the
options and formats the element. Validation defaults `stwembed` in place,
requires `stwaccesskeyid` and enforces the sizing rule. Two tag parsers turn a
token list into such a node: `shrinkthewebimage url size alt` and
`stwimage url alt key=value ...`.

Files:

- `wrappers.dfy`: the `Result` datatype. A `Failure` stands for a raised exception.
- `pystrings.dfy`: Python's `str.split` on one separator character and the slice `s[1:-1]`.
- `shrinkthewebtags.dfy`: the module itself.
  - option values (`IntV` or `StrV`) and the error kinds;
  - the option dictionary as a class `OptionDict`, so that it is shared by reference as in Python;
  - the node class `FormatSTWImageNode`, with `BuildUrlParams`, `Resolve` and `Render`;
  - the two parsers. Each is a pure function giving the constructor arguments (`TagArgs`) and a method that builds the node.

The node's dictionary is one object. `Render` passes it to `BuildUrlParams`,
which writes `stwembed` into it, so rendering changes the node. The model keeps
this aliasing. `RenderRepeatable` proves that a second render gives the same
output.

The model follows the code as written:

- `stwxmax`, `stwymax` and `stwfull` may be combined; only `stwsize` excludes them (shrinkthewebtags.py:36-40, `BoundsCombine`).
- A keyword token is split on every `=` by `bit.split("=")`; a token with no `=` or with more than one raises `ValueError` when it is unpacked into key and value (shrinkthewebtags.py:152, `KeywordOfUnpack`).
- The url after `stwurl=` and the alt text are inserted verbatim by the `%` format, so the `alt` attribute is not HTML-escaped (shrinkthewebtags.py:58, `ImgTagLayout`).
- An unquoted size token of `shrinkthewebimage` is passed on as its literal text. It is never looked up in the context, although the tag's usage text says a context variable may be used.

## Model

| member | source | states |
|---|---|---|
| PyStrings.Split | stw/templatetags/shrinkthewebtags.py:152 | `bit.split("=")` always gives at least one piece; `SplitJoin`, `SplitInTwo` and `SplitCount` pin down the pieces exactly |
| PyStrings.SplitJoin | stw/templatetags/shrinkthewebtags.py:152 | `bit.split("=")` loses nothing: joining the pieces with `=` gives the token back, and no piece holds `=` |
| PyStrings.SplitInTwo | stw/templatetags/shrinkthewebtags.py:152 | the split gives exactly `[key, value]` iff the token is `key=value` with no `=` in key or value |
| PyStrings.SplitCount | stw/templatetags/shrinkthewebtags.py:152 | the split has one piece more than the token has `=` characters |
| PyStrings.Inner | stw/templatetags/shrinkthewebtags.py:47 | `var[1:-1]` drops the first and last character, and is empty for a one-character token |
| ShrinkTheWebTags.Overlay | stw/templatetags/shrinkthewebtags.py:19-24 | merged keys are those of the defaults and of the tag; the tag's value wins on a shared key; other keys keep the default |
| ShrinkTheWebTags.OptionDict.Update | stw/templatetags/shrinkthewebtags.py:21-23 | `dict.update` replaces the contents with their overlay by the argument |
| ShrinkTheWebTags.FormatSTWImageNode.constructor | stw/templatetags/shrinkthewebtags.py:18-26 | the node keeps url and alt; its fresh dictionary holds every default and tag key, and the tag's value where both have the key |
| ShrinkTheWebTags.OverlayExamples | stw/tests/test_templatetags.py:31-37 | an overridden access key takes the tag's value and a default-only key is kept |
| ShrinkTheWebTags.WithEmbedDefault | stw/templatetags/shrinkthewebtags.py:31-32 | `stwembed` is added with value 1 only when absent; every other key and value, and an explicit `stwembed`, is unchanged |
| ShrinkTheWebTags.UrlParams | stw/templatetags/shrinkthewebtags.py:29-41 | missing access key gives ConfigError, checked before sizing; with the key, success iff `stwsize` xor a bounding option; conflict and missing-size messages; on success the input plus the `stwembed` default; every failure is a TemplateSyntaxError |
| ShrinkTheWebTags.FormatSTWImageNode.BuildUrlParams | stw/templatetags/shrinkthewebtags.py:29-41 | the caller's dictionary gets the `stwembed` default in place, even when an error is raised; the outcome is `UrlParams` of the old contents |
| ShrinkTheWebTags.UrlParamsAfterEmbedDefault | stw/templatetags/shrinkthewebtags.py:31-40 | validating a dictionary whose `stwembed` is already defaulted decides exactly as validating the original |
| ShrinkTheWebTags.UrlParamsIdempotent | stw/templatetags/shrinkthewebtags.py:29-41 | validating a successful result again returns the same result |
| ShrinkTheWebTags.UrlParamsSuccessKeys | stw/templatetags/shrinkthewebtags.py:31-41 | a successful result holds the access key, `stwembed` and a sizing option, so it has at least three entries |
| ShrinkTheWebTags.BoundsCombine | stw/templatetags/shrinkthewebtags.py:36-40 | `stwxmax` together with `stwfull` is accepted |
| ShrinkTheWebTags.UrlParamsAddsEmbed | stw/tests/test_templatetags.py:41-43 | the dictionary without `stwembed` comes back with `stwembed` 1 |
| ShrinkTheWebTags.UrlParamsKeepsEmbed | stw/tests/test_templatetags.py:49-51 | an explicit `stwembed` of 0 is kept |
| ShrinkTheWebTags.UrlParamsRefusals | stw/tests/test_templatetags.py:66-80 | `{}` gives ConfigError; the access key alone gives the missing-size error; `stwsize` with `stwfull` gives the conflict error |
| ShrinkTheWebTags.FormatSTWImageNode.Resolve | stw/templatetags/shrinkthewebtags.py:44-50 | a token quoted with matching `"` or `'` stands for `var[1:-1]`; any other token is handed to the context lookup |
| ShrinkTheWebTags.ResolveQuotedLiteral | stw/templatetags/shrinkthewebtags.py:46-47 | a quoted text resolves to the text itself, whatever the context |
| ShrinkTheWebTags.ResolveMismatchedQuotes | stw/templatetags/shrinkthewebtags.py:46-49 | a token with mismatched quotes is looked up as it stands; a lone `"` resolves to the empty text |
| ShrinkTheWebTags.QuoteRoundTrip | stw/templatetags/shrinkthewebtags.py:104-105 | quoting a text and stripping the quotes gives the text back |
| ShrinkTheWebTags.QueryPart | stw/templatetags/shrinkthewebtags.py:55-57 | the encoded options followed by `&` when they are non-empty, nothing otherwise |
| ShrinkTheWebTags.ImgTag | stw/templatetags/shrinkthewebtags.py:58 | the `%` format of the element: its length and the fixed prefix ending in `xino.php?`; `ImgTagLayout` gives the position of every part |
| ShrinkTheWebTags.ImgTagLayout | stw/templatetags/shrinkthewebtags.py:55-58 | the element is the fixed prefix, then the encoded options and `&` only when they are non-empty, then `stwurl=`, the url and the alt text verbatim |
| ShrinkTheWebTags.ImgTagWithoutOptions | stw/tests/test_templatetags.py:90-100 | empty encoded options give `...xino.php?stwurl=url" alt="alt"/>` |
| ShrinkTheWebTags.ImgTagWithOptions | stw/tests/test_templatetags.py:114-124 | encoded options `kwarg=kwargvalue` give the fixed prefix ending in `xino.php?` followed by `kwarg=kwargvalue&stwurl=url" alt="alt"/>` |
| ShrinkTheWebTags.RenderOutput | stw/templatetags/shrinkthewebtags.py:52-60 | `render` as a value: a url lookup error is raised first, then an alt lookup error; it succeeds iff url and alt resolve and the options validate; `RenderOutcome` and `RenderRepeatable` give the rest |
| ShrinkTheWebTags.RenderOutcome | stw/templatetags/shrinkthewebtags.py:52-60 | once url and alt resolve: no access key gives ConfigError; a valid sizing choice gives the element over the defaulted options; otherwise a TemplateSyntaxError |
| ShrinkTheWebTags.RenderRepeatable | stw/templatetags/shrinkthewebtags.py:52-58 | rendering after a render has written the `stwembed` default gives the same outcome |
| ShrinkTheWebTags.FormatSTWImageNode.Render | stw/templatetags/shrinkthewebtags.py:52-60 | the outcome is `RenderOutput` of the old dictionary; the dictionary gets the `stwembed` default once url and alt resolve, and is untouched otherwise |
| ShrinkTheWebTags.ShrinkTheWebImageTag | stw/templatetags/shrinkthewebtags.py:100-109 | success iff exactly four tokens, else the arity error naming the tag; url and alt are tokens 1 and 3 unchanged; `stwsize` is the only option, quote-stripped when quoted and verbatim otherwise |
| ShrinkTheWebTags.SizeOption | stw/templatetags/shrinkthewebtags.py:103-105 | a quoted size loses exactly its two quotes (putting them back gives the token), a lone quote character gives the empty text, an unquoted size is kept |
| ShrinkTheWebTags.ShrinkTheWebImageQuotedSize | stw/templatetags/shrinkthewebtags.py:103-107 | a quoted size reaches the node as the text between the quotes |
| ShrinkTheWebTags.ShrinkTheWebImageExamples | stw/tests/test_templatetags.py:129-141 | one token is refused; `tagname url lrg alt` gives url, alt and `stwsize=lrg` |
| ShrinkTheWebTags.DoShrinkTheWebImage | stw/templatetags/shrinkthewebtags.py:100-109 | fails exactly as `ShrinkTheWebImageTag`; on success a new node with its url, alt and options overlaid on the defaults |
| ShrinkTheWebTags.KeywordOf | stw/templatetags/shrinkthewebtags.py:151-159 | an accepted keyword token has a `stw` key and a non-empty value |
| ShrinkTheWebTags.KeywordOfPair | stw/templatetags/shrinkthewebtags.py:152-159 | for `key=value` with one `=`: an empty value is refused first, then a key without `stw`, otherwise the pair is accepted |
| ShrinkTheWebTags.KeywordOfUnpack | stw/templatetags/shrinkthewebtags.py:152 | ValueError exactly when the token does not hold a single `=` |
| ShrinkTheWebTags.KeywordOfAccepted | stw/templatetags/shrinkthewebtags.py:152 | an accepted token is exactly its key, `=` and its value, neither holding `=` |
| ShrinkTheWebTags.Keywords | stw/templatetags/shrinkthewebtags.py:150-159 | the options gathered by the loop: none for no tokens, and every gathered key starts with `stw` and holds a non-empty string; the `Keywords*` lemmas give acceptance, the error raised and which duplicate wins |
| ShrinkTheWebTags.KeywordsFailurePersists | stw/templatetags/shrinkthewebtags.py:151-159 | once a prefix of the keyword tokens is refused, the whole list is refused with the same error |
| ShrinkTheWebTags.KeywordsSucceedIff | stw/templatetags/shrinkthewebtags.py:151-159 | the keyword tokens are accepted iff each one is |
| ShrinkTheWebTags.KeywordsFirstError | stw/templatetags/shrinkthewebtags.py:151-159 | the first refused token decides the error raised |
| ShrinkTheWebTags.KeywordsKeys | stw/templatetags/shrinkthewebtags.py:156-157 | every gathered option has a `stw` key and a non-empty string value taken from some token |
| ShrinkTheWebTags.KeywordsLastWins | stw/templatetags/shrinkthewebtags.py:157 | a token whose key no later token repeats sets that key to its value |
| ShrinkTheWebTags.StwImageTag | stw/templatetags/shrinkthewebtags.py:145-160 | fewer than three tokens give the arity error naming the tag; url and alt are tokens 1 and 2; three tokens give no options |
| ShrinkTheWebTags.StwImageTagKeywords | stw/templatetags/shrinkthewebtags.py:145-160 | with at least three tokens, the tag is accepted iff every token after the third is, and its options are those gathered from those tokens |
| ShrinkTheWebTags.StwImageArity | stw/tests/test_templatetags.py:146-158 | one token is refused; `stwimage url alt` gives no options |
| ShrinkTheWebTags.StwImageOneKeyword | stw/tests/test_templatetags.py:160-166 | `stwsize=lrg` gives the single option `stwsize` = `lrg` |
| ShrinkTheWebTags.KeywordsTwoTokens | stw/tests/test_templatetags.py:168-174 | `stwsize=lrg stwembed=1` gather both options as strings |
| ShrinkTheWebTags.StwImageTwoKeywords | stw/tests/test_templatetags.py:168-174 | the node gets `stwsize` = `lrg` and `stwembed` = the string `1` |
| ShrinkTheWebTags.StwImageForeignKeyword | stw/tests/test_templatetags.py:176-180 | `size=lrg` is refused with the not-an-STW-keyword error |
| ShrinkTheWebTags.DoStwImage | stw/templatetags/shrinkthewebtags.py:145-160 | the token loop fails exactly as `StwImageTag`; on success a new node with its url, alt and options overlaid on the defaults |

## Left out

- `template.Variable(var).resolve(context)` (Django's dotted-path lookup) is the `Lookup` parameter. Its result is taken to be text already, so the `%s` conversion of other objects is not modelled.
- `urllib.urlencode` is the `Encoder` parameter. Percent-encoding and the order of keys are not modelled.
- `settings.SHRINK_THE_WEB` is the `defaults` parameter of the constructor and of both parsers.
- The tag registration, the unused `mark_safe` import, the parsers' `parser` argument and the `template.Node` base class are framework glue.
- The host tokenizer is not modelled. The parsers take its token list, which always starts with the tag name; a lone tag name is the only one-token case.
- An empty url, alt or size token would raise `IndexError` at `var[0]`. The tokenizer never yields one, so `Resolve`, `Render` and `ShrinkTheWebImageTag` require non-empty tokens instead of modelling that error.
- `value is ''` is an identity test in Python. It is modelled as string equality.
- The constructor's `**kwargs` become a map argument. Python's own restrictions on keyword names are not modelled.
- `str(key)` (shrinkthewebtags.py:157) is modelled as the identity on the key text. Under Python 2 a unicode token with a non-ASCII key would raise `UnicodeEncodeError` there; the model has no such error.
- FormatSTWImageNode.BuildUrlParams: Python returns the dictionary object itself; the model returns its contents, equal to the dictionary's new contents.
