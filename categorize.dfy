/**
 * The category-suggestion function of the finance assistant.
 *
 * A request carries a free-text transaction description; the function asks a
 * hosted language model to pick one label from a fixed list, cleans up the
 * model's reply and falls back to "Outros" when the reply is not a label.
 * The model call and the JSON parsing of the request body are foreign: their
 * outcomes are the inputs `reply` and `req.body` below.
 */
module Categorize {

  /** The closed list of labels the model is asked to choose from. */
  const Categories: seq<string> := [
    "Alimentação", "Moradia", "Transporte", "Saúde", "Educação",
    "Lazer", "Vestuário", "Assinaturas e Serviços", "Cuidados Pessoais",
    "Investimentos", "Impostos", "Dívidas", "Doações", "Renda", "Outros"
  ]

  /** The label used when the model's reply is not one of the Categories. */
  const Fallback: string := "Outros"

  // ---------------------------------------------------------------------
  // String.prototype.trim
  // ---------------------------------------------------------------------

  /** ECMAScript WhiteSpace and LineTerminator code points (what `trim` strips). */
  predicate IsJsWhitespace(c: char) {
    || c == '\t' || c == '\n' || c == '\U{000B}' || c == '\U{000C}' || c == '\r'
    || c == ' ' || c == '\U{00A0}' || c == '\U{1680}'
    || ('\U{2000}' <= c <= '\U{200A}')
    || c == '\U{2028}' || c == '\U{2029}' || c == '\U{202F}' || c == '\U{205F}'
    || c == '\U{3000}' || c == '\U{FEFF}'
  }

  /** `s` with its longest all-whitespace prefix removed. */
  function TrimStart(s: string): (r: string)
    ensures |r| <= |s| && r == s[|s| - |r|..]
    ensures forall i :: 0 <= i < |s| - |r| ==> IsJsWhitespace(s[i])
    ensures r != [] ==> !IsJsWhitespace(r[0])
  {
    if s != [] && IsJsWhitespace(s[0]) then TrimStart(s[1..]) else s
  }

  /** `s` with its longest all-whitespace suffix removed. */
  function TrimEnd(s: string): (r: string)
    ensures |r| <= |s| && r == s[..|r|]
    ensures forall i :: |r| <= i < |s| ==> IsJsWhitespace(s[i])
    ensures r != [] ==> !IsJsWhitespace(r[|r| - 1])
  {
    if s != [] && IsJsWhitespace(s[|s| - 1]) then TrimEnd(s[..|s| - 1]) else s
  }

  /** JavaScript's `s.trim()`: whitespace removed from both ends. */
  function Trim(s: string): (r: string)
    ensures |r| <= |s|
    ensures r != [] ==> !IsJsWhitespace(r[0]) && !IsJsWhitespace(r[|r| - 1])
    ensures r == [] <==> forall i :: 0 <= i < |s| ==> IsJsWhitespace(s[i])
  {
    var t := TrimStart(s);
    var r := TrimEnd(t);
    assert t != [] ==> r != [] && !IsJsWhitespace(s[|s| - |t|]) by {
      if t != [] {
        assert !IsJsWhitespace(t[0]) && t[0] == s[|s| - |t|];
      }
    }
    r
  }

  // ---------------------------------------------------------------------
  // String.prototype.replace with a one-character string pattern
  // ---------------------------------------------------------------------

  /** `p` is the position of the first `c` in `s`. */
  predicate IsFirst(s: string, c: char, p: int) {
    0 <= p < |s| && s[p] == c && forall k :: 0 <= k < p ==> s[k] != c
  }

  /** Index of the first `c` in `s`, or -1 when `s` has none (`indexOf`). */
  function IndexOf(s: string, c: char): (i: int)
    ensures -1 <= i < |s|
    ensures 0 <= i ==> IsFirst(s, c, i)
    ensures i < 0 <==> c !in s
  {
    if s == [] then -1
    else if s[0] == c then 0
    else
      var j := IndexOf(s[1..], c);
      assert s == [s[0]] + s[1..];
      if j < 0 then -1 else j + 1
  }

  /**
   * JavaScript's `s.replace(c, '')` for a one-character string pattern: only
   * the FIRST occurrence of `c` is removed.
   */
  function RemoveFirst(s: string, c: char): (r: string)
    ensures c !in s ==> r == s
    ensures forall p :: IsFirst(s, c, p) ==> r == s[..p] + s[p + 1..]
    ensures |r| == if c in s then |s| - 1 else |s|
    ensures multiset(r) + (if c in s then multiset{c} else multiset{}) == multiset(s)
  {
    var i := IndexOf(s, c);
    if i < 0 then s
    else
      assert s == s[..i] + [c] + s[i + 1..];
      s[..i] + s[i + 1..]
  }

  // ---------------------------------------------------------------------
  // Post-processing of the model's reply
  // ---------------------------------------------------------------------

  /** `reply.trim().replace('.', '')`: trim both ends, then drop the first '.'. */
  function Normalize(reply: string): (r: string)
    ensures '.' !in Trim(reply) ==> r == Trim(reply)
    ensures '.' in Trim(reply) ==> |r| == |Trim(reply)| - 1
    ensures forall p :: IsFirst(Trim(reply), '.', p) ==> r == Trim(reply)[..p] + Trim(reply)[p + 1..]
    ensures multiset(r) + (if '.' in Trim(reply) then multiset{'.'} else multiset{}) == multiset(Trim(reply))
  {
    RemoveFirst(Trim(reply), '.')
  }

  /** The category returned for a model reply: the normalised reply when it is a label, else the fallback. */
  function CategoryOf(reply: string): (category: string)
    ensures category in Categories
    ensures Normalize(reply) in Categories ==> category == Normalize(reply)
    ensures Normalize(reply) !in Categories ==> category == Fallback
  {
    var category := Normalize(reply);
    if category in Categories then category else Fallback
  }

  /** No '.' anywhere and no whitespace at either end. */
  predicate Clean(s: string) {
    '.' !in s && (s != [] ==> !IsJsWhitespace(s[0]) && !IsJsWhitespace(s[|s| - 1]))
  }

  /** A clean string is left as it is by Normalize. */
  lemma NormalizeFixes(s: string)
    requires Clean(s)
    ensures Normalize(s) == s
  {
    assert TrimStart(s) == s;
    assert TrimEnd(s) == s;
  }

  /** Every label is clean. */
  lemma CategoriesAreClean()
    ensures forall i :: 0 <= i < |Categories| ==> Clean(Categories[i]) && Categories[i] != []
  {
  }

  /** Hence every label is a clean, non-empty string. */
  lemma LabelIsClean(c: string)
    requires c in Categories
    ensures Clean(c) && c != []
  {
    CategoriesAreClean();
    var i :| 0 <= i < |Categories| && Categories[i] == c;
  }

  /** The fallback is itself a label, and the post-processing returns it for itself. */
  lemma FallbackIsCategory()
    ensures Fallback in Categories
    ensures CategoryOf(Fallback) == Fallback
  {
    NormalizeFixes(Fallback);
  }

  /** Normalising a label gives it back, so a label is always returned for itself. */
  lemma CategoriesAreNormal()
    ensures forall c :: c in Categories ==> Normalize(c) == c && CategoryOf(c) == c
  {
    CategoriesAreClean();
    forall i | 0 <= i < |Categories| ensures Normalize(Categories[i]) == Categories[i] {
      NormalizeFixes(Categories[i]);
    }
  }

  /** A string with a '.' or with whitespace at an end is not a label. */
  lemma UncleanIsNoLabel(s: string)
    requires !Clean(s)
    ensures s !in Categories
  {
    CategoriesAreClean();
  }

  predicate AllWhitespace(w: string) {
    forall i :: 0 <= i < |w| ==> IsJsWhitespace(w[i])
  }

  /** Leading whitespace in front of a non-whitespace character is exactly what TrimStart drops. */
  lemma {:induction false} TrimStartDropsPadding(w: string, s: string)
    requires AllWhitespace(w)
    requires s != [] && !IsJsWhitespace(s[0])
    ensures TrimStart(w + s) == s
    decreases |w|
  {
    if w != [] {
      assert (w + s)[0] == w[0] && (w + s)[1..] == w[1..] + s;
      TrimStartDropsPadding(w[1..], s);
    }
  }

  /** Trailing whitespace after a non-whitespace character is exactly what TrimEnd drops. */
  lemma {:induction false} TrimEndDropsPadding(s: string, w: string)
    requires AllWhitespace(w)
    requires s != [] && !IsJsWhitespace(s[|s| - 1])
    ensures TrimEnd(s + w) == s
    decreases |w|
  {
    if w == [] {
      assert s + w == s;
    } else {
      var u := w[..|w| - 1];
      assert (s + w)[|s + w| - 1] == w[|w| - 1] && (s + w)[..|s + w| - 1] == s + u;
      TrimEndDropsPadding(s, u);
    }
  }

  /** Trim removes whitespace padding around a string whose ends are not whitespace. */
  lemma TrimDropsPadding(w1: string, t: string, w2: string)
    requires AllWhitespace(w1) && AllWhitespace(w2)
    requires t != [] && !IsJsWhitespace(t[0]) && !IsJsWhitespace(t[|t| - 1])
    ensures Trim(w1 + t + w2) == t
  {
    assert w1 + t + w2 == w1 + (t + w2);
    TrimStartDropsPadding(w1, t + w2);
    TrimEndDropsPadding(t, w2);
  }

  /** Normalize removes whitespace padding and at most one trailing '.' from a clean string. */
  lemma {:induction false} NormalizeDropsPadding(w1: string, c: string, dot: string, w2: string)
    requires Clean(c) && c != [] && AllWhitespace(w1) && AllWhitespace(w2)
    requires dot == "" || dot == "."
    ensures Normalize(w1 + c + dot + w2) == c
  {
    var t := c + dot;
    assert t[0] == c[0] && t[|t| - 1] == (if dot == "" then c[|c| - 1] else '.');
    assert w1 + c + dot + w2 == w1 + t + w2;
    TrimDropsPadding(w1, t, w2);
    if dot == "." {
      assert IsFirst(t, '.', |c|) by {
        forall k | 0 <= k < |c| ensures t[k] != '.' { assert t[k] == c[k]; }
      }
      assert t[..|c|] + t[|c| + 1..] == c;
    } else {
      assert t == c;
    }
  }

  /** A label, padded with whitespace and optionally followed by one '.', is recognised. */
  lemma PaddedLabelRecognised(w1: string, c: string, dot: string, w2: string)
    requires c in Categories && AllWhitespace(w1) && AllWhitespace(w2)
    requires dot == "" || dot == "."
    ensures CategoryOf(w1 + c + dot + w2) == c
  {
    LabelIsClean(c);
    NormalizeDropsPadding(w1, c, dot, w2);
  }

  /** The first '.' after a '.'-free prefix is the one removed. */
  lemma RemoveFirstAfter(u: string, v: string)
    requires '.' !in u
    ensures RemoveFirst(u + "." + v, '.') == u + v
  {
    var t := u + "." + v;
    forall k | 0 <= k < |u| ensures t[k] != '.' {
      assert t[k] == u[k];
    }
    assert IsFirst(t, '.', |u|);
    assert t[..|u|] == u && t[|u| + 1..] == v;
  }

  /**
   * Trimming comes before the '.' is removed, so a clean string written with a
   * space before a final '.' keeps that space.
   */
  lemma NormalizeKeepsSpaceBeforeDot(c: string)
    requires Clean(c) && c != []
    ensures Normalize(c + " .") == c + " "
  {
    var u := c + " ";
    assert c + " ." == u + "." + "" && u + "" == u;
    var t := u + "." + "";
    assert t[0] == c[0] && t[|t| - 1] == '.' && "" + t + "" == t;
    TrimDropsPadding("", t, "");
    RemoveFirstAfter(u, "");
  }

  /** Only the first '.' is removed, so a clean string followed by two keeps one. */
  lemma NormalizeKeepsSecondDot(c: string)
    requires Clean(c) && c != []
    ensures Normalize(c + "..") == c + "."
  {
    var t := c + "." + ".";
    assert c + ".." == t;
    assert t[0] == c[0] && t[|t| - 1] == '.' && "" + t + "" == t;
    TrimDropsPadding("", t, "");
    RemoveFirstAfter(c, ".");
  }

  /** So a label written with a space before its '.', or with two '.', falls back. */
  lemma SpaceOrSecondDotFallsBack(c: string)
    requires c in Categories
    ensures CategoryOf(c + " .") == Fallback
    ensures CategoryOf(c + "..") == Fallback
  {
    LabelIsClean(c);
    NormalizeKeepsSpaceBeforeDot(c);
    NormalizeKeepsSecondDot(c);
    assert (c + " ")[|c|] == ' ' && (c + ".")[|c|] == '.';
    UncleanIsNoLabel(c + " ");
    UncleanIsNoLabel(c + ".");
  }

  /** Feeding a returned category back through the post-processing returns it unchanged. */
  lemma CategoryOfIdempotent(reply: string)
    ensures CategoryOf(CategoryOf(reply)) == CategoryOf(reply)
  {
    CategoriesAreNormal();
  }

  // ---------------------------------------------------------------------
  // The request handler
  // ---------------------------------------------------------------------

  /** The JavaScript values `description` can take after JSON parsing (JSON has no NaN). */
  datatype JsValue =
    | Undefined
    | Null
    | Bool(b: bool)
    | Number(n: real)
    | Str(s: string)
    | Composite   // an object or an array

  /** JavaScript truthiness (`!description` is the negation). */
  predicate Truthy(v: JsValue) {
    match v
    case Undefined => false
    case Null => false
    case Bool(b) => b
    case Number(n) => n != 0.0
    case Str(s) => s != ""
    case Composite => true
  }

  /**
   * The request body as `await req.json()` followed by `const { description } = ...`
   * sees it: either that step throws (malformed JSON, a JSON `null`) with a
   * message, or it yields the `description` field (Undefined when absent).
   */
  datatype Body = Unreadable(message: string) | Parsed(description: JsValue)

  datatype Request = Request(httpMethod: string, body: Body)

  /** What the model call gives back: a thrown failure, or the reply's text. */
  datatype Reply = Failed(message: string) | Text(text: string)

  datatype Headers = Cors | CorsJson

  datatype Payload =
    | PlainText(text: string)
    | CategoryJson(category: string)
    | ErrorJson(error: string)

  datatype Response = Response(status: int, payload: Payload, headers: Headers)

  const DescriptionRequired: string := "Description is required"

  /** The `serve` callback, with the model's reply as an input. */
  function Handle(req: Request, reply: Reply): (resp: Response)
    ensures req.httpMethod == "OPTIONS" ==> resp == Response(200, PlainText("ok"), Cors)
    ensures req.httpMethod != "OPTIONS" ==> resp.headers == CorsJson
    ensures resp.status == 200 || resp.status == 400 || resp.status == 500
    ensures resp.status == 200 <==> !resp.payload.ErrorJson?
    ensures resp.payload.CategoryJson? ==> resp.payload.category in Categories
    ensures (req.httpMethod != "OPTIONS" && req.body.Parsed? && !Truthy(req.body.description))
              ==> resp == Response(400, ErrorJson(DescriptionRequired), CorsJson)
  {
    if req.httpMethod == "OPTIONS" then
      Response(200, PlainText("ok"), Cors)
    else
      match req.body
      case Unreadable(message) => Response(500, ErrorJson(message), CorsJson)
      case Parsed(description) =>
        if !Truthy(description) then
          Response(400, ErrorJson(DescriptionRequired), CorsJson)
        else
          match reply
          case Failed(message) => Response(500, ErrorJson(message), CorsJson)
          case Text(text) => Response(200, CategoryJson(CategoryOf(text)), CorsJson)
  }

  /** A preflight request is answered "ok" whatever the body and the model would say. */
  lemma PreflightNeverAsksModel(req: Request, reply1: Reply, reply2: Reply)
    requires req.httpMethod == "OPTIONS"
    ensures Handle(req, reply1) == Handle(req, reply2) == Response(200, PlainText("ok"), Cors)
  {
  }

  /** A missing or falsy description is refused with 400 before the model is asked. */
  lemma MissingDescriptionNeverAsksModel(req: Request, reply1: Reply, reply2: Reply)
    requires req.httpMethod != "OPTIONS" && req.body.Parsed? && !Truthy(req.body.description)
    ensures Handle(req, reply1) == Handle(req, reply2) == Response(400, ErrorJson(DescriptionRequired), CorsJson)
  {
  }

  /** Every failure, of the body or of the model call, is caught and answered 500 with its message. */
  lemma FailuresAnswer500(req: Request, reply: Reply)
    requires req.httpMethod != "OPTIONS"
    requires req.body.Unreadable? || (Truthy(req.body.description) && reply.Failed?)
    ensures Handle(req, reply) == Response(500, ErrorJson(if req.body.Unreadable? then req.body.message else reply.message), CorsJson)
  {
  }

  /**
   * A model reply for a real description always yields 200 and a label from the
   * closed list: the normalised reply when it is a label, `"Outros"` otherwise.
   */
  lemma ReplyAlwaysYieldsLabel(req: Request, text: string)
    requires req.httpMethod != "OPTIONS" && req.body.Parsed? && Truthy(req.body.description)
    ensures Handle(req, Text(text)).status == 200
    ensures Handle(req, Text(text)).payload.CategoryJson?
    ensures Handle(req, Text(text)).payload.category in Categories
    ensures Normalize(text) in Categories ==> Handle(req, Text(text)).payload.category == Normalize(text)
    ensures Normalize(text) !in Categories ==> Handle(req, Text(text)).payload.category == Fallback
    ensures Handle(req, Text(text)) == Response(200, CategoryJson(CategoryOf(text)), CorsJson)
  {
  }
}
