/** HTML escaping of user-supplied text before it is stored: `sanitize`,
    and the two field-by-field sanitizers for product input and customer
    details. */
module Escaping {
  import opened Json

  /** `s.replace(/c/g, rep)` for a single-character pattern. */
  function ReplaceAll(s: string, c: char, rep: string): (r: string)
    ensures c !in rep ==> c !in r
  {
    if s == [] then []
    else (if s[0] == c then rep else [s[0]]) + ReplaceAll(s[1..], c, rep)
  }

  /** `sanitize` on a string: the five replacements, in the order written. */
  function SanitizeString(s: string): string {
    var amp := ReplaceAll(s, '&', "&amp;");
    var lt := ReplaceAll(amp, '<', "&lt;");
    var gt := ReplaceAll(lt, '>', "&gt;");
    var quot := ReplaceAll(gt, '"', "&quot;");
    ReplaceAll(quot, '\'', "&#039;")
  }

  /** `sanitize(v)`: strings are escaped, every other value is returned as it is. */
  function Sanitize(v: Value): (r: Value)
    ensures v.Str? ==> r == Str(Escape(v.s))
    ensures !v.Str? ==> r == v
  {
    if v.Str? then
      SanitizeIsEscape(v.s);
      Str(SanitizeString(v.s))
    else v
  }

  // ---------------------------------------------------------------------
  // Reference definition: each special character replaced by its entity

  predicate Special(c: char) {
    c == '&' || c == '<' || c == '>' || c == '"' || c == '\''
  }

  function EntityOf(c: char): string {
    if c == '&' then "&amp;"
    else if c == '<' then "&lt;"
    else if c == '>' then "&gt;"
    else if c == '"' then "&quot;"
    else if c == '\'' then "&#039;"
    else [c]
  }

  function Escape(s: string): string {
    if s == [] then [] else EntityOf(s[0]) + Escape(s[1..])
  }

  /** Reads the five entities back as their characters. */
  function Unescape(s: string): string
    decreases |s|
  {
    if s == [] then []
    else if |s| >= 5 && s[..5] == "&amp;" then "&" + Unescape(s[5..])
    else if |s| >= 4 && s[..4] == "&lt;" then "<" + Unescape(s[4..])
    else if |s| >= 4 && s[..4] == "&gt;" then ">" + Unescape(s[4..])
    else if |s| >= 6 && s[..6] == "&quot;" then "\"" + Unescape(s[6..])
    else if |s| >= 6 && s[..6] == "&#039;" then "'" + Unescape(s[6..])
    else [s[0]] + Unescape(s[1..])
  }

  lemma {:induction false} ReplaceAllConcat(a: string, b: string, c: char, rep: string)
    ensures ReplaceAll(a + b, c, rep) == ReplaceAll(a, c, rep) + ReplaceAll(b, c, rep)
  {
    if a != [] {
      assert (a + b)[1..] == a[1..] + b;
      ReplaceAllConcat(a[1..], b, c, rep);
    } else {
      assert a + b == b;
    }
  }

  lemma {:induction false} ReplaceAllAbsent(s: string, c: char, rep: string)
    requires c !in s
    ensures ReplaceAll(s, c, rep) == s
  {
    if s != [] {
      assert s[0] != c;
      ReplaceAllAbsent(s[1..], c, rep);
    }
  }

  lemma ReplaceAllSingle(d: char, c: char, rep: string)
    ensures ReplaceAll([d], c, rep) == if d == c then rep else [d]
  {
    assert [d][1..] == [];
  }

  /** The replacements after the one that produced `e` leave it alone. */
  lemma Untouched(e: string, from: nat)
    requires from <= 4
    requires from <= 0 ==> '&' !in e
    requires from <= 1 ==> '<' !in e
    requires from <= 2 ==> '>' !in e
    requires from <= 3 ==> '"' !in e
    requires '\'' !in e
    ensures from <= 0 ==> ReplaceAll(e, '&', "&amp;") == e
    ensures from <= 1 ==> ReplaceAll(e, '<', "&lt;") == e
    ensures from <= 2 ==> ReplaceAll(e, '>', "&gt;") == e
    ensures from <= 3 ==> ReplaceAll(e, '"', "&quot;") == e
    ensures ReplaceAll(e, '\'', "&#039;") == e
  {
    if from <= 0 { ReplaceAllAbsent(e, '&', "&amp;"); }
    if from <= 1 { ReplaceAllAbsent(e, '<', "&lt;"); }
    if from <= 2 { ReplaceAllAbsent(e, '>', "&gt;"); }
    if from <= 3 { ReplaceAllAbsent(e, '"', "&quot;"); }
    ReplaceAllAbsent(e, '\'', "&#039;");
  }

  lemma SanitizeAmp()
    ensures SanitizeString("&") == "&amp;"
  {
    ReplaceAllSingle('&', '&', "&amp;");
    Untouched("&amp;", 1);
  }

  lemma SanitizeLt()
    ensures SanitizeString("<") == "&lt;"
  {
    ReplaceAllSingle('<', '&', "&amp;");
    ReplaceAllSingle('<', '<', "&lt;");
    Untouched("&lt;", 2);
  }

  lemma SanitizeGt()
    ensures SanitizeString(">") == "&gt;"
  {
    ReplaceAllSingle('>', '&', "&amp;");
    ReplaceAllSingle('>', '<', "&lt;");
    ReplaceAllSingle('>', '>', "&gt;");
    Untouched("&gt;", 3);
  }

  lemma SanitizeQuot()
    ensures SanitizeString("\"") == "&quot;"
  {
    ReplaceAllSingle('"', '&', "&amp;");
    ReplaceAllSingle('"', '<', "&lt;");
    ReplaceAllSingle('"', '>', "&gt;");
    ReplaceAllSingle('"', '"', "&quot;");
    Untouched("&quot;", 4);
  }

  lemma SanitizeApos()
    ensures SanitizeString("'") == "&#039;"
  {
    ReplaceAllSingle('\'', '&', "&amp;");
    ReplaceAllSingle('\'', '<', "&lt;");
    ReplaceAllSingle('\'', '>', "&gt;");
    ReplaceAllSingle('\'', '"', "&quot;");
    ReplaceAllSingle('\'', '\'', "&#039;");
  }

  lemma SanitizePlainChar(c: char)
    requires !Special(c)
    ensures SanitizeString([c]) == [c]
  {
    Untouched([c], 0);
  }

  lemma SanitizeChar(c: char)
    ensures SanitizeString([c]) == EntityOf(c)
  {
    if c == '&' { SanitizeAmp(); }
    else if c == '<' { SanitizeLt(); }
    else if c == '>' { SanitizeGt(); }
    else if c == '"' { SanitizeQuot(); }
    else if c == '\'' { SanitizeApos(); }
    else { SanitizePlainChar(c); }
  }

  lemma SanitizeConcat(a: string, b: string)
    ensures SanitizeString(a + b) == SanitizeString(a) + SanitizeString(b)
  {
    ReplaceAllConcat(a, b, '&', "&amp;");
    var a1, b1 := ReplaceAll(a, '&', "&amp;"), ReplaceAll(b, '&', "&amp;");
    ReplaceAllConcat(a1, b1, '<', "&lt;");
    var a2, b2 := ReplaceAll(a1, '<', "&lt;"), ReplaceAll(b1, '<', "&lt;");
    ReplaceAllConcat(a2, b2, '>', "&gt;");
    var a3, b3 := ReplaceAll(a2, '>', "&gt;"), ReplaceAll(b2, '>', "&gt;");
    ReplaceAllConcat(a3, b3, '"', "&quot;");
    var a4, b4 := ReplaceAll(a3, '"', "&quot;"), ReplaceAll(b3, '"', "&quot;");
    ReplaceAllConcat(a4, b4, '\'', "&#039;");
  }

  /** The chain of global replacements escapes every character on its own:
      `&` goes first, so the ampersands the later steps insert are never
      escaped again. */
  lemma {:induction false} SanitizeIsEscape(s: string)
    ensures SanitizeString(s) == Escape(s)
  {
    if s == [] {
    } else {
      assert s == [s[0]] + s[1..];
      SanitizeConcat([s[0]], s[1..]);
      SanitizeChar(s[0]);
      SanitizeIsEscape(s[1..]);
    }
  }

  /** No `<`, `>`, `"` or `'` survives escaping. */
  lemma {:induction false} EscapeIsSafe(s: string)
    ensures forall i :: 0 <= i < |Escape(s)| ==> !(Escape(s)[i] in "<>\"'")
  {
    if s != [] {
      EscapeIsSafe(s[1..]);
      var e := EntityOf(s[0]);
      assert forall i :: 0 <= i < |e| ==> !(e[i] in "<>\"'");
      var r := Escape(s[1..]);
      assert Escape(s) == e + r;
      forall i | 0 <= i < |Escape(s)|
        ensures !(Escape(s)[i] in "<>\"'")
      {
        if i >= |e| {
          assert Escape(s)[i] == r[i - |e|];
        }
      }
    }
  }

  /** Text without special characters is stored unchanged. */
  lemma {:induction false} EscapePlain(s: string)
    requires forall i :: 0 <= i < |s| ==> !Special(s[i])
    ensures Escape(s) == s
  {
    if s != [] {
      EscapePlain(s[1..]);
    }
  }

  lemma UnescapeAmp(rest: string)
    ensures Unescape("&amp;" + rest) == "&" + Unescape(rest)
  {
    var s := "&amp;" + rest;
    assert s[..5] == "&amp;" && s[5..] == rest;
  }

  lemma UnescapeLt(rest: string)
    ensures Unescape("&lt;" + rest) == "<" + Unescape(rest)
  {
    var s := "&lt;" + rest;
    assert s[1] == 'l';
    assert !(|s| >= 5 && s[..5] == "&amp;") by { if |s| >= 5 { assert s[..5][1] == 'l'; } }
    assert s[..4] == "&lt;" && s[4..] == rest;
  }

  lemma UnescapeGt(rest: string)
    ensures Unescape("&gt;" + rest) == ">" + Unescape(rest)
  {
    var s := "&gt;" + rest;
    assert s[1] == 'g';
    assert !(|s| >= 5 && s[..5] == "&amp;") by { if |s| >= 5 { assert s[..5][1] == 'g'; } }
    assert s[..4] != "&lt;" by { assert s[..4][1] == 'g'; }
    assert s[..4] == "&gt;" && s[4..] == rest;
  }

  lemma UnescapeQuot(rest: string)
    ensures Unescape("&quot;" + rest) == "\"" + Unescape(rest)
  {
    var s := "&quot;" + rest;
    assert s[1] == 'q';
    assert s[..5] != "&amp;" by { assert s[..5][1] == 'q'; }
    assert s[..4] != "&lt;" && s[..4] != "&gt;" by { assert s[..4][1] == 'q'; }
    assert s[..6] == "&quot;" && s[6..] == rest;
  }

  lemma UnescapeApos(rest: string)
    ensures Unescape("&#039;" + rest) == "'" + Unescape(rest)
  {
    var s := "&#039;" + rest;
    assert s[1] == '#';
    assert s[..5] != "&amp;" by { assert s[..5][1] == '#'; }
    assert s[..4] != "&lt;" && s[..4] != "&gt;" by { assert s[..4][1] == '#'; }
    assert s[..6] != "&quot;" by { assert s[..6][1] == '#'; }
    assert s[..6] == "&#039;" && s[6..] == rest;
  }

  lemma UnescapePlain(c: char, rest: string)
    requires !Special(c)
    ensures Unescape([c] + rest) == [c] + Unescape(rest)
  {
    var s := [c] + rest;
    assert s[0] == c;
    assert !(|s| >= 5 && s[..5] == "&amp;") by { if |s| >= 5 { assert s[..5][0] == c; } }
    assert !(|s| >= 4 && s[..4] == "&lt;") by { if |s| >= 4 { assert s[..4][0] == c; } }
    assert !(|s| >= 4 && s[..4] == "&gt;") by { if |s| >= 4 { assert s[..4][0] == c; } }
    assert !(|s| >= 6 && s[..6] == "&quot;") by { if |s| >= 6 { assert s[..6][0] == c; } }
    assert !(|s| >= 6 && s[..6] == "&#039;") by { if |s| >= 6 { assert s[..6][0] == c; } }
    assert s[1..] == rest;
  }

  lemma UnescapeEntity(c: char, rest: string)
    ensures Unescape(EntityOf(c) + rest) == [c] + Unescape(rest)
  {
    if c == '&' { UnescapeAmp(rest); }
    else if c == '<' { UnescapeLt(rest); }
    else if c == '>' { UnescapeGt(rest); }
    else if c == '"' { UnescapeQuot(rest); }
    else if c == '\'' { UnescapeApos(rest); }
    else { UnescapePlain(c, rest); }
  }

  /** Escaping loses nothing: the original text is read back from the stored one. */
  lemma {:induction false} UnescapeEscape(s: string)
    ensures Unescape(Escape(s)) == s
  {
    if s != [] {
      UnescapeEntity(s[0], Escape(s[1..]));
      UnescapeEscape(s[1..]);
      assert [s[0]] + s[1..] == s;
    }
  }

  /** Escaping is not idempotent: text that is sanitized a second time has
      its ampersands escaped again. */
  lemma EscapeAmpText()
    ensures Escape("&amp;") == "&amp;amp;"
  {
    var t := "&amp;";
    assert t[0] == '&' && t[1..] == "amp;";
    EscapePlain("amp;");
  }

  lemma SanitizeTwice()
    ensures SanitizeString(SanitizeString("&")) == "&amp;amp;"
    ensures SanitizeString(SanitizeString("&")) != SanitizeString("&")
  {
    SanitizeAmp();
    SanitizeIsEscape("&amp;");
    EscapeAmpText();
  }

  // ---------------------------------------------------------------------
  // Field-by-field sanitizers

  const CustomerKeys: set<string> :=
    {"email", "firstName", "lastName", "address", "apartment", "city", "zipCode", "phone"}

  /** `sanitizeCustomer(customer)`: each of the eight contact fields, with a
      missing or falsy one replaced by the empty string, then sanitized. */
  function SanitizeCustomer(customer: Value): (r: Value)
    ensures r.Obj? && r.fields.Keys == CustomerKeys
    ensures forall k :: k in CustomerKeys && !Truthy(Get(customer, k)) ==> Get(r, k) == Str("")
    ensures forall k :: k in CustomerKeys && Get(customer, k).Str? ==> Get(r, k) == Str(Escape(Get(customer, k).s))
  {
    Obj(map k | k in CustomerKeys :: Sanitize(Or(Get(customer, k), Str(""))))
  }

  /** `sanitizeProduct(data)`: the input keys a product accepts from a
      request body (the numeric `id` and `createdAt` are not among them). */
  const ProductInputKeys: set<string> :=
    {"name", "price", "category", "description", "image", "images", "sizes", "isSoldOut"}

  function SanitizeProduct(data: Value): (r: Value)
    ensures r.Obj? && r.fields.Keys == ProductInputKeys
    ensures Get(r, "price") == Num(match JsNumber(Get(data, "price")) case Some(n) => n case None => 0)
    ensures Get(r, "images").Arr? && Get(r, "sizes").Arr?
    ensures Get(data, "images").Arr? ==> Get(r, "images") == Get(data, "images")
    ensures Get(data, "sizes").Arr? ==> Get(r, "sizes") == Get(data, "sizes")
    ensures !Get(data, "images").Arr? ==> Get(r, "images") == Arr([])
    ensures !Get(data, "sizes").Arr? ==> Get(r, "sizes") == Arr([])
    ensures Get(r, "isSoldOut") == Bool(Truthy(Get(data, "isSoldOut")))
    ensures Get(r, "image") == Get(data, "image")
    ensures Get(data, "name").Str? ==> Get(r, "name") == Str(Escape(Get(data, "name").s))
    ensures Get(data, "category").Str? ==> Get(r, "category") == Str(Escape(Get(data, "category").s))
    ensures Get(data, "description").Str? ==> Get(r, "description") == Str(Escape(Get(data, "description").s))
  {
    Obj(map k | k in ProductInputKeys :: ProductInputField(data, k))
  }

  /** The value `sanitizeProduct` stores under input key `k`: `Number(price) || 0`,
      arrays only when they are arrays, `Boolean(isSoldOut)`, the image URL as
      given and the text fields sanitized. */
  function ProductInputField(data: Value, k: string): Value {
    var v := Get(data, k);
    if k == "price" then Num(match JsNumber(v) case Some(n) => n case None => 0)
    else if k == "images" || k == "sizes" then (if v.Arr? then v else Arr([]))
    else if k == "isSoldOut" then Bool(Truthy(v))
    else if k == "image" then v
    else Sanitize(v)
  }
}
