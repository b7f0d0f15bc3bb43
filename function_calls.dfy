/** FunctionCallProcessor: the description of bot methods as AI-callable
    functions (sanitised names, default descriptions, parameter names and
    JSON-schema types) and the dispatch of a call to one of them.
    Reflection is replaced by declarations: a class is its name and the
    facts the code asks of it, a method is its annotation and parameters. */
module FunctionCalls {
  import opened Wrappers
  import opened JavaText

  // ---------------------------------------------------------------------
  // String.hashCode and Math.abs on 32-bit ints

  /** Reduction of an integer to the 32-bit two's-complement range. */
  function Wrap32(x: int): (r: int)
    ensures INT_MIN <= r <= INT_MAX
    ensures (r - x) % 0x1_0000_0000 == 0
    ensures INT_MIN <= x <= INT_MAX ==> r == x
  {
    (x - INT_MIN) % 0x1_0000_0000 + INT_MIN
  }

  /** The UTF-16 code units of one code point, which is what
      String.hashCode iterates over. */
  function Utf16Units(c: char): (r: seq<int>)
    ensures 1 <= |r| <= 2
    ensures forall k :: 0 <= k < |r| ==> 0 <= r[k] < 0x10000
  {
    if c as int < 0x10000 then [c as int]
    else [0xD800 + (c as int - 0x10000) / 0x400, 0xDC00 + (c as int - 0x10000) % 0x400]
  }

  function HashUnits(h: int, us: seq<int>): (r: int)
    requires INT_MIN <= h <= INT_MAX
    ensures INT_MIN <= r <= INT_MAX
    decreases |us|
  {
    if us == [] then h else HashUnits(Wrap32(31 * h + us[0]), us[1..])
  }

  /** String.hashCode: h = 31 * h + unit over the code units, wrapping at
      32 bits. */
  function HashCode(s: string): (r: int)
    ensures INT_MIN <= r <= INT_MAX
  {
    if s == [] then 0 else HashUnits(HashCode(s[..|s| - 1]), Utf16Units(s[|s| - 1]))
  }

  /** Math.abs(int): the negation wraps, so the minimum stays negative. */
  function Abs32(h: int): (r: int)
    requires INT_MIN <= h <= INT_MAX
    ensures r >= 0 <==> h != INT_MIN
    ensures h != INT_MIN ==> r == h || r == -h
    ensures h == INT_MIN ==> r == INT_MIN
  {
    if h == INT_MIN then INT_MIN else if h < 0 then -h else h
  }

  // ---------------------------------------------------------------------
  // sanitizeFunctionName

  /** The characters [a-zA-Z0-9_.-] a function name may keep. */
  predicate IsNameChar(c: char) { IsLetter(c) || IsDigit(c) || c == '_' || c == '.' || c == '-' }

  /** No two adjacent underscores. */
  predicate NoDoubleUnderscore(s: string) {
    forall i :: 0 <= i < |s| - 1 ==> !(s[i] == '_' && s[i + 1] == '_')
  }

  /** What the sanitiser produces: name characters only, an ASCII letter
      first, no underscore run and no trailing underscore. */
  predicate WellFormedName(s: string) {
    && |s| > 0
    && IsLetter(s[0])
    && s[|s| - 1] != '_'
    && NoDoubleUnderscore(s)
    && forall i :: 0 <= i < |s| ==> IsNameChar(s[i])
  }

  /** replaceAll("[^a-zA-Z0-9_.-]", "_"): the pattern works on code points,
      as `char` does here. */
  function ReplaceInvalid(s: string): (r: string)
    ensures |r| == |s|
    ensures forall i :: 0 <= i < |s| ==> r[i] == (if IsNameChar(s[i]) then s[i] else '_')
  {
    seq(|s|, i requires 0 <= i < |s| => if IsNameChar(s[i]) then s[i] else '_')
  }

  /** replaceAll("_{2,}", "_"): every run of underscores becomes one. */
  function CollapseUnderscores(s: string): (r: string)
    ensures |r| <= |s|
    ensures s != [] ==> r != [] && r[0] == s[0] && r[|r| - 1] == s[|s| - 1]
    ensures forall c :: c in r ==> c in s
    ensures NoDoubleUnderscore(r)
    decreases |s|
  {
    if |s| < 2 then s
    else if s[0] == '_' && s[1] == '_' then CollapseUnderscores(s[1..])
    else [s[0]] + CollapseUnderscores(s[1..])
  }

  /** The "^_+" half of replaceAll("^_+|_+$", ""). */
  function DropLeadingUnderscores(s: string): (r: string)
    ensures |r| <= |s| && r == s[|s| - |r|..]
    ensures r == [] || r[0] != '_'
  {
    if s != [] && s[0] == '_' then DropLeadingUnderscores(s[1..]) else s
  }

  /** The "_+$" half of replaceAll("^_+|_+$", ""). */
  function DropTrailingUnderscores(s: string): (r: string)
    ensures |r| <= |s| && r == s[..|r|]
    ensures r == [] || r[|r| - 1] != '_'
  {
    if s != [] && s[|s| - 1] == '_' then DropTrailingUnderscores(s[..|s| - 1]) else s
  }

  lemma NoDoubleUnderscoreSlice(s: string, a: int, b: int)
    requires 0 <= a <= b <= |s| && NoDoubleUnderscore(s)
    ensures NoDoubleUnderscore(s[a..b])
  {
    var t := s[a..b];
    forall i | 0 <= i < |t| - 1
      ensures !(t[i] == '_' && t[i + 1] == '_')
    {
      assert t[i] == s[a + i] && t[i + 1] == s[a + i + 1];
    }
  }

  predicate AllNameChars(s: string) { forall i :: 0 <= i < |s| ==> IsNameChar(s[i]) }

  lemma NameCharsSlice(s: string, a: int, b: int)
    requires 0 <= a <= b <= |s| && AllNameChars(s)
    ensures AllNameChars(s[a..b])
  {
    assert forall i :: 0 <= i < b - a ==> s[a..b][i] == s[a + i];
  }

  lemma {:induction false} CollapseNameChars(s: string)
    requires AllNameChars(s)
    ensures AllNameChars(CollapseUnderscores(s))
    decreases |s|
  {
    if |s| >= 2 {
      NameCharsSlice(s, 1, |s|);
      CollapseNameChars(s[1..]);
    }
  }

  /** The three replaceAll calls in sequence. */
  function Sanitized(s: string): (r: string)
    ensures NoDoubleUnderscore(r)
    ensures AllNameChars(r)
    ensures r == [] || (r[0] != '_' && r[|r| - 1] != '_')
  {
    SanitizedShape(s);
    DropTrailingUnderscores(DropLeadingUnderscores(CollapseUnderscores(ReplaceInvalid(s))))
  }

  lemma SanitizedShape(s: string)
    ensures var t := DropTrailingUnderscores(DropLeadingUnderscores(CollapseUnderscores(ReplaceInvalid(s))));
      && NoDoubleUnderscore(t) && AllNameChars(t) && (t == [] || (t[0] != '_' && t[|t| - 1] != '_'))
  {
    CollapseNameChars(ReplaceInvalid(s));
    TrimmedUnderscoresClean(CollapseUnderscores(ReplaceInvalid(s)));
  }

  /** Dropping the leading and trailing underscores of a clean name leaves
      a clean name that neither starts nor ends with one. */
  lemma TrimmedUnderscoresClean(c: string)
    requires NoDoubleUnderscore(c) && AllNameChars(c)
    ensures var t := DropTrailingUnderscores(DropLeadingUnderscores(c));
      && NoDoubleUnderscore(t) && AllNameChars(t) && (t == [] || (t[0] != '_' && t[|t| - 1] != '_'))
  {
    var l := DropLeadingUnderscores(c);
    SliceKeepsName(c, |c| - |l|, |c|);
    var t := DropTrailingUnderscores(l);
    SliceKeepsName(l, 0, |t|);
    assert t != [] ==> t[0] == l[0];
  }

  /** A slice of a clean name is clean. */
  lemma SliceKeepsName(s: string, a: int, b: int)
    requires 0 <= a <= b <= |s| && NoDoubleUnderscore(s) && AllNameChars(s)
    ensures NoDoubleUnderscore(s[a..b]) && AllNameChars(s[a..b])
  {
    NoDoubleUnderscoreSlice(s, a, b);
    NameCharsSlice(s, a, b);
  }

  /** Integer.toString gives digits after an optional minus sign. */
  lemma IntToStringChars(n: int)
    ensures forall i :: 0 <= i < |IntToString(n)| ==> IsDigit(IntToString(n)[i]) || IntToString(n)[i] == '-'
    ensures IsDigit(IntToString(n)[|IntToString(n)| - 1])
  {
  }

  /** Two well-formed parts joined by one underscore stay well formed. */
  lemma JoinWellFormed(a: string, b: string)
    requires WellFormedName(a)
    requires b != [] && b[0] != '_' && b[|b| - 1] != '_' && NoDoubleUnderscore(b)
    requires forall i :: 0 <= i < |b| ==> IsNameChar(b[i])
    ensures WellFormedName(a + "_" + b)
  {
    var r := a + "_" + b;
    assert forall i :: 0 <= i < |a| ==> r[i] == a[i];
    assert r[|a|] == '_';
    assert forall i :: |a| < i < |r| ==> r[i] == b[i - |a| - 1];
    forall i | 0 <= i < |r| - 1
      ensures !(r[i] == '_' && r[i + 1] == '_')
    {
      if i < |a| - 1 {
        assert r[i] == a[i] && r[i + 1] == a[i + 1];
      } else if i > |a| {
        assert r[i] == b[i - |a| - 1] && r[i + 1] == b[i - |a|];
      }
    }
  }

  lemma LettersWellFormed(a: string)
    requires a != [] && forall i :: 0 <= i < |a| ==> IsLetter(a[i])
    ensures WellFormedName(a)
  {
  }

  /** The name used when nothing survives: "function_" + Math.abs(hashCode). */
  function FallbackName(s: string): (r: string)
    ensures r == "function_" + IntToString(Abs32(HashCode(s)))
    ensures WellFormedName(r)
  {
    FallbackWellFormed(Abs32(HashCode(s)));
    "function_" + IntToString(Abs32(HashCode(s)))
  }

  /** "function_" before the decimal text of any int is well formed. */
  lemma FallbackWellFormed(n: int)
    ensures WellFormedName("function_" + IntToString(n))
  {
    var digits := IntToString(n);
    IntToStringChars(n);
    LettersWellFormed("function");
    JoinWellFormed("function", digits);
    assert "function" + "_" + digits == "function_" + digits;
  }

  /** The name for a missing input. */
  function UnknownName(): (r: string)
    ensures r == "unknown_function"
    ensures WellFormedName(r)
  {
    LettersWellFormed("unknown");
    LettersWellFormed("function");
    JoinWellFormed("unknown", "function");
    assert "unknown" + "_" + "function" == "unknown_function";
    "unknown_function"
  }

  /** "func_" in front of a sanitised name that does not start with a letter. */
  function FuncPrefixed(u: string): (r: string)
    requires u != [] && u[0] != '_' && u[|u| - 1] != '_' && NoDoubleUnderscore(u)
    requires forall i :: 0 <= i < |u| ==> IsNameChar(u[i])
    ensures r == "func_" + u
    ensures WellFormedName(r)
  {
    LettersWellFormed("func");
    JoinWellFormed("func", u);
    assert "func" + "_" + u == "func_" + u;
    "func_" + u
  }

  /** sanitizeFunctionName (the null case is the empty string here). */
  function SanitizeFunctionName(s: string): (r: string)
    ensures s == [] ==> r == "unknown_function"
    ensures WellFormedName(r)
  {
    if s == [] then UnknownName()
    else
      var t := Sanitized(s);
      var u := if t == [] then FallbackName(s) else t;
      if IsLetter(u[0]) then u else FuncPrefixed(u)
  }

  /** The characters of a name other than the underscores. */
  function NonUnderscore(s: string): (r: string)
    ensures forall c :: c in r ==> c in s && c != '_'
  {
    if s == [] then [] else (if s[0] == '_' then [] else [s[0]]) + NonUnderscore(s[1..])
  }

  /** Independent of the pipeline: the input's characters that a name may
      keep, underscores aside, in order. */
  function KeptChars(s: string): (r: string)
    ensures forall c :: c in r ==> IsNameChar(c) && c != '_'
  {
    if s == [] then [] else (if IsNameChar(s[0]) && s[0] != '_' then [s[0]] else []) + KeptChars(s[1..])
  }

  lemma {:induction false} NonUnderscoreAppend(a: string, b: string)
    ensures NonUnderscore(a + b) == NonUnderscore(a) + NonUnderscore(b)
  {
    if a != [] {
      assert (a + b)[1..] == a[1..] + b;
      NonUnderscoreAppend(a[1..], b);
    } else {
      assert a + b == b;
    }
  }

  lemma {:induction false} NoUnderscoreKept(s: string)
    requires forall i :: 0 <= i < |s| ==> s[i] != '_'
    ensures NonUnderscore(s) == s
  {
    if s != [] {
      NoUnderscoreKept(s[1..]);
    }
  }

  lemma {:induction false} ReplaceInvalidKeeps(s: string)
    ensures NonUnderscore(ReplaceInvalid(s)) == KeptChars(s)
  {
    if s != [] {
      assert ReplaceInvalid(s)[1..] == ReplaceInvalid(s[1..]);
      ReplaceInvalidKeeps(s[1..]);
    }
  }

  lemma {:induction false} CollapseKeeps(s: string)
    ensures NonUnderscore(CollapseUnderscores(s)) == NonUnderscore(s)
    decreases |s|
  {
    if |s| >= 2 {
      CollapseKeeps(s[1..]);
      if !(s[0] == '_' && s[1] == '_') {
        var r := [s[0]] + CollapseUnderscores(s[1..]);
        assert r[0] == s[0] && r[1..] == CollapseUnderscores(s[1..]);
      }
    }
  }

  lemma {:induction false} DropLeadingKeeps(s: string)
    ensures NonUnderscore(DropLeadingUnderscores(s)) == NonUnderscore(s)
  {
    if s != [] && s[0] == '_' {
      DropLeadingKeeps(s[1..]);
    }
  }

  lemma {:induction false} DropTrailingKeeps(s: string)
    ensures NonUnderscore(DropTrailingUnderscores(s)) == NonUnderscore(s)
    decreases |s|
  {
    if s != [] && s[|s| - 1] == '_' {
      var p := s[..|s| - 1];
      DropTrailingKeeps(p);
      assert s == p + ['_'];
      NonUnderscoreAppend(p, ['_']);
      assert NonUnderscore(['_']) == [];
    }
  }

  /** Sanitising only rearranges underscores: the other characters left are
      exactly the name characters of the input, in order. */
  lemma SanitizedKeeps(s: string)
    ensures NonUnderscore(Sanitized(s)) == KeptChars(s)
  {
    var c := CollapseUnderscores(ReplaceInvalid(s));
    ReplaceInvalidKeeps(s);
    CollapseKeeps(ReplaceInvalid(s));
    DropLeadingKeeps(c);
    DropTrailingKeeps(DropLeadingUnderscores(c));
  }

  /** The hash fallback is taken exactly when the input has no name
      character other than underscores. */
  lemma SanitizedEmptyIff(s: string)
    ensures Sanitized(s) == [] <==> KeptChars(s) == []
  {
    SanitizedKeeps(s);
    var t := Sanitized(s);
    if t != [] {
      assert NonUnderscore(t) == [t[0]] + NonUnderscore(t[1..]);
    }
  }

  lemma FuncLiteral()
    ensures NonUnderscore("func_") == "func"
  {
    assert "func_"[1..] == "unc_" && "unc_"[1..] == "nc_" && "nc_"[1..] == "c_" && "c_"[1..] == "_";
    assert NonUnderscore("_") == [];
    assert NonUnderscore("c_") == "c";
    assert NonUnderscore("nc_") == "nc";
    assert NonUnderscore("unc_") == "unc";
  }

  lemma FuncPrefixKeeps(t: string)
    ensures NonUnderscore("func_" + t) == "func" + NonUnderscore(t)
  {
    NonUnderscoreAppend("func_", t);
    FuncLiteral();
  }

  /** The last step of the sanitiser keeps the non-underscore characters,
      behind "func" when the first is not a letter. */
  lemma PrefixedKeeps(t: string)
    requires t != [] && t[0] != '_'
    ensures NonUnderscore(if IsLetter(t[0]) then t else "func_" + t)
         == (if IsLetter(t[0]) then [] else "func") + NonUnderscore(t)
  {
    if !IsLetter(t[0]) {
      FuncPrefixKeeps(t);
    }
  }

  /** The non-underscore characters of the result: those of the input,
      behind "func" when the first of them is not a letter. */
  lemma SanitizeKeepsCharacters(s: string)
    requires KeptChars(s) != []
    ensures NonUnderscore(SanitizeFunctionName(s))
         == (if IsLetter(KeptChars(s)[0]) then [] else "func") + KeptChars(s)
  {
    var t := Sanitized(s);
    assert t != [] by { SanitizedEmptyIff(s); }
    assert NonUnderscore(t) == KeptChars(s) by { SanitizedKeeps(s); }
    assert KeptChars(s)[0] == t[0] by {
      assert NonUnderscore(t) == [t[0]] + NonUnderscore(t[1..]);
    }
    assert SanitizeFunctionName(s) == (if IsLetter(t[0]) then t else "func_" + t);
    PrefixedKeeps(t);
  }

  /** Inputs with no name character besides underscores get the hash name. */
  lemma SanitizeFallback(s: string)
    requires s != [] && KeptChars(s) == []
    ensures SanitizeFunctionName(s) == "function_" + IntToString(Abs32(HashCode(s)))
  {
    SanitizedEmptyIff(s);
  }

  lemma {:induction false} CollapseIdentity(s: string)
    requires NoDoubleUnderscore(s)
    ensures CollapseUnderscores(s) == s
    decreases |s|
  {
    if |s| >= 2 {
      NoDoubleUnderscoreSlice(s, 1, |s|);
      CollapseIdentity(s[1..]);
      assert s == [s[0]] + s[1..];
    }
  }

  /** A name is left unchanged exactly when it is already well formed. */
  lemma SanitizeFixedPoint(s: string)
    ensures SanitizeFunctionName(s) == s <==> WellFormedName(s)
  {
    if WellFormedName(s) {
      var ri := ReplaceInvalid(s);
      assert ri == s;
      CollapseIdentity(s);
      assert DropLeadingUnderscores(s) == s;
      assert DropTrailingUnderscores(s) == s;
      assert Sanitized(s) == s;
    }
  }

  /** Sanitising a sanitised name changes nothing. */
  lemma SanitizeIdempotent(s: string)
    ensures SanitizeFunctionName(SanitizeFunctionName(s)) == SanitizeFunctionName(s)
  {
    SanitizeFixedPoint(SanitizeFunctionName(s));
  }

  // ---------------------------------------------------------------------
  // Classes, annotations and the JSON-schema types

  /** A class as the code inspects it: its name, whether it is primitive,
      and whether List or Map is assignable from it. */
  datatype JavaClass = JavaClass(name: string, primitive: bool, isList: bool, isMap: bool)

  predicate IsStringClass(c: JavaClass) { c.name == "java.lang.String" }
  predicate IsIntegerClass(c: JavaClass) { c.name == "java.lang.Integer" || c.name == "int" }
  predicate IsBooleanClass(c: JavaClass) { c.name == "java.lang.Boolean" || c.name == "boolean" }
  predicate IsDoubleClass(c: JavaClass) { c.name == "java.lang.Double" || c.name == "double" }
  predicate IsFloatClass(c: JavaClass) { c.name == "java.lang.Float" || c.name == "float" }

  /** isComplexType: not primitive, outside the java.lang, java.util and
      java.time name prefixes, and not Object. */
  function IsComplexType(c: JavaClass): (r: bool)
    ensures r ==> !c.primitive && c.name != "java.lang.Object"
    ensures (c.name in ["java.lang.String", "java.lang.Integer", "java.lang.Boolean", "java.lang.Double",
                        "java.util.List", "java.util.Map", "java.time.LocalDate"]) ==> !r
  {
    && !c.primitive
    && !StartsWith(c.name, "java.lang")
    && !StartsWith(c.name, "java.util")
    && !StartsWith(c.name, "java.time")
    && c.name != "java.lang.Object"
  }

  /** The schema types a parameter or property can be given. */
  predicate IsSchemaType(t: string) {
    t == "string" || t == "integer" || t == "boolean" || t == "number" || t == "array" || t == "object"
  }

  /** getJsonSchemaType, for the properties of a complex type. */
  function JsonSchemaType(c: JavaClass): (r: string)
    ensures IsSchemaType(r)
    ensures r == "object" <==>
      !IsStringClass(c) && !IsIntegerClass(c) && !IsBooleanClass(c) && !IsDoubleClass(c) && !IsFloatClass(c)
      && !c.isList && (c.isMap || IsComplexType(c))
    ensures r == "array" <==>
      !IsStringClass(c) && !IsIntegerClass(c) && !IsBooleanClass(c) && !IsDoubleClass(c) && !IsFloatClass(c)
      && c.isList
    ensures IsStringClass(c) ==> r == "string"
    ensures IsIntegerClass(c) ==> r == "integer"
    ensures IsBooleanClass(c) ==> r == "boolean"
    ensures IsDoubleClass(c) || IsFloatClass(c) ==> r == "number"
    ensures r == "string" <==>
      IsStringClass(c)
      || (!IsIntegerClass(c) && !IsBooleanClass(c) && !IsDoubleClass(c) && !IsFloatClass(c)
          && !c.isList && !c.isMap && !IsComplexType(c))
  {
    if IsStringClass(c) then "string"
    else if IsIntegerClass(c) then "integer"
    else if IsBooleanClass(c) then "boolean"
    else if IsDoubleClass(c) || IsFloatClass(c) then "number"
    else if c.isList then "array"
    else if c.isMap || IsComplexType(c) then "object"
    else "string"
  }

  /** The jsonSchemaType chosen by extractParameterTypeInfo, a second
      chain of tests written separately from getJsonSchemaType. */
  function ParameterSchemaType(c: JavaClass): (r: string)
    ensures IsSchemaType(r)
  {
    if IsStringClass(c) then "string"
    else if IsIntegerClass(c) then "integer"
    else if IsBooleanClass(c) then "boolean"
    else if IsDoubleClass(c) || IsFloatClass(c) then "number"
    else if c.isList then "array"
    else if c.isMap then "object"
    else if IsComplexType(c) then "object"
    else "string"
  }

  /** The two chains agree on every class. */
  lemma SchemaTypesAgree(c: JavaClass)
    ensures ParameterSchemaType(c) == JsonSchemaType(c)
  {
  }

  /** Types such as Long, which no branch names, fall through to "string". */
  lemma LongIsString()
    ensures JsonSchemaType(JavaClass("java.lang.Long", false, false, false)) == "string"
  {
    assert StartsWith("java.lang.Long", "java.lang");
  }

  /** getPropertyNameFromGetter: "getXyz" becomes "xyz"; anything else,
      "get" itself included, is returned unchanged. */
  function GetterProperty(methodName: string): (r: string)
    ensures !(StartsWith(methodName, "get") && |methodName| > 3) ==> r == methodName
    ensures StartsWith(methodName, "get") && |methodName| > 3 ==>
      |r| == |methodName| - 3 && r[0] == ToLower(methodName[3]) && r[1..] == methodName[4..]
  {
    if StartsWith(methodName, "get") && |methodName| > 3 then [ToLower(methodName[3])] + methodName[4..]
    else methodName
  }

  /** The getter of a property named in lower camel case gives the name
      back. */
  lemma GetterPropertyOfGetter(p: string)
    requires p != [] && !IsUpper(p[0])
    ensures GetterProperty("get" + [ToUpper(p[0])] + p[1..]) == p
  {
    var m := "get" + [ToUpper(p[0])] + p[1..];
    assert m[..3] == "get" && m[3] == ToUpper(p[0]) && m[4..] == p[1..];
  }

  datatype ParameterAnnotation = ParameterAnnotation(name: string, required: bool, description: string)

  /** A method parameter: its @ExecuteParameter, its reflected name when
      the class was compiled with parameter names, and its type. */
  datatype Param = Param(annotation: Option<ParameterAnnotation>, reflectedName: Option<string>, typ: JavaClass)

  /** getParameterNameSpringAIStyle: a non-blank annotation name, else the
      reflected name, else "arg" + position. */
  function ParameterName(p: Param, index: nat): (r: string)
    ensures p.annotation.Some? && !TrimEmpty(p.annotation.value.name) ==> r == p.annotation.value.name
    ensures (p.annotation.None? || TrimEmpty(p.annotation.value.name)) && p.reflectedName.Some? ==>
      r == p.reflectedName.value
    ensures (p.annotation.None? || TrimEmpty(p.annotation.value.name)) && p.reflectedName.None? ==>
      r == "arg" + IntToString(index)
  {
    if p.annotation.Some? && !TrimEmpty(p.annotation.value.name) then p.annotation.value.name
    else if p.reflectedName.Some? then p.reflectedName.value
    else "arg" + IntToString(index)
  }

  datatype ParameterInfo = ParameterInfo(
    name: string, required: bool, description: string, jsonSchemaType: string, typ: JavaClass)

  /** The description of an annotated parameter at a position. */
  function InfoOf(p: Param, index: nat): ParameterInfo
    requires p.annotation.Some?
  {
    ParameterInfo(ParameterName(p, index), p.annotation.value.required, p.annotation.value.description,
                  ParameterSchemaType(p.typ), p.typ)
  }

  /** The descriptions of the annotated parameters among the first n, in
      order. */
  function ParameterInfos(ps: seq<Param>, n: nat): (r: seq<ParameterInfo>)
    requires n <= |ps|
    ensures |r| <= n
  {
    if n == 0 then []
    else ParameterInfos(ps, n - 1) + (if ps[n - 1].annotation.Some? then [InfoOf(ps[n - 1], n - 1)] else [])
  }

  /** extractParameterInfos: the loop over the parameters. */
  method ExtractParameterInfos(ps: seq<Param>) returns (infos: seq<ParameterInfo>)
    ensures infos == ParameterInfos(ps, |ps|)
  {
    infos := [];
    var i := 0;
    while i < |ps|
      invariant 0 <= i <= |ps|
      invariant infos == ParameterInfos(ps, i)
    {
      if ps[i].annotation.Some? {
        infos := infos + [InfoOf(ps[i], i)];
      }
      i := i + 1;
    }
  }

  /** Every annotated parameter is described, with its name and schema
      type. */
  lemma {:induction false} ParameterInfosCover(ps: seq<Param>, n: nat)
    requires n <= |ps|
    ensures forall i :: 0 <= i < n && ps[i].annotation.Some? ==> InfoOf(ps[i], i) in ParameterInfos(ps, n)
  {
    if n > 0 {
      ParameterInfosCover(ps, n - 1);
    }
  }

  /** Every description comes from an annotated parameter. */
  lemma {:induction false} ParameterInfosAnnotated(ps: seq<Param>, n: nat)
    requires n <= |ps|
    ensures forall info :: info in ParameterInfos(ps, n) ==>
      exists i :: 0 <= i < n && ps[i].annotation.Some? && info == InfoOf(ps[i], i)
  {
    if n > 0 {
      ParameterInfosAnnotated(ps, n - 1);
      var last := if ps[n - 1].annotation.Some? then [InfoOf(ps[n - 1], n - 1)] else [];
      assert ParameterInfos(ps, n) == ParameterInfos(ps, n - 1) + last;
    }
  }

  // ---------------------------------------------------------------------
  // Function descriptions

  datatype MethodAnnotation = MethodAnnotation(operation: string, logExecution: bool)

  /** A declared method: its class, name, @ExecuteMethod and parameters. */
  datatype MethodDecl = MethodDecl(
    declaringClass: string, name: string, annotation: Option<MethodAnnotation>, params: seq<Param>)

  /** The @BotExecutor of a class. */
  datatype BotExecutorAnnotation = BotExecutorAnnotation(name: string, description: string, enabled: bool)

  datatype FunctionInfo = FunctionInfo(
    name: string, description: string, parameters: seq<ParameterInfo>,
    decl: MethodDecl, targetClass: string, logExecution: bool)

  /** The name before sanitising: the operation, or botName_methodName. */
  function RawFunctionName(operation: string, botName: string, methodName: string): string
  {
    if operation == [] then botName + "_" + methodName else operation
  }

  /** createFunctionInfo. */
  function CreateFunctionInfo(m: MethodDecl, bot: BotExecutorAnnotation): (r: FunctionInfo)
    requires m.annotation.Some?
    ensures WellFormedName(r.name)
    ensures r.name == SanitizeFunctionName(RawFunctionName(m.annotation.value.operation, bot.name, m.name))
    ensures bot.description == [] ==> r.description == "Function from " + bot.name
    ensures bot.description != [] ==> r.description == bot.description
    ensures r.decl == m && r.targetClass == m.declaringClass
    ensures r.logExecution == m.annotation.value.logExecution
  {
    var raw := RawFunctionName(m.annotation.value.operation, bot.name, m.name);
    FunctionInfo(SanitizeFunctionName(raw),
                 if bot.description == [] then "Function from " + bot.name else bot.description,
                 ParameterInfos(m.params, |m.params|), m, m.declaringClass, m.annotation.value.logExecution)
  }

  /** An operation that is already a well-formed name is used as is. */
  lemma OperationNameKept(m: MethodDecl, bot: BotExecutorAnnotation)
    requires m.annotation.Some? && WellFormedName(m.annotation.value.operation)
    ensures CreateFunctionInfo(m, bot).name == m.annotation.value.operation
  {
    SanitizeFixedPoint(m.annotation.value.operation);
  }

  /** The descriptions of the annotated methods among the first n. */
  function FunctionInfos(ms: seq<MethodDecl>, bot: BotExecutorAnnotation, n: nat): (r: seq<FunctionInfo>)
    requires n <= |ms|
    ensures |r| <= n
    ensures forall k :: 0 <= k < |r| ==> WellFormedName(r[k].name)
  {
    if n == 0 then []
    else FunctionInfos(ms, bot, n - 1)
         + (if ms[n - 1].annotation.Some? then [CreateFunctionInfo(ms[n - 1], bot)] else [])
  }

  /** extractFunctionInfosFromClass. */
  method ExtractFunctionInfosFromClass(ms: seq<MethodDecl>, bot: BotExecutorAnnotation)
    returns (infos: seq<FunctionInfo>)
    ensures infos == FunctionInfos(ms, bot, |ms|)
  {
    infos := [];
    var i := 0;
    while i < |ms|
      invariant 0 <= i <= |ms|
      invariant infos == FunctionInfos(ms, bot, i)
    {
      ghost var next := FunctionInfos(ms, bot, i + 1);
      if ms[i].annotation.Some? {
        var info := CreateFunctionInfo(ms[i], bot);
        assert next == infos + [info];
        infos := infos + [info];
      } else {
        assert next == infos;
      }
      i := i + 1;
    }
  }

  /** extractFunctionInfosFromInstance: nothing for a class without an
      enabled @BotExecutor. */
  function InstanceFunctionInfos(ms: seq<MethodDecl>, bot: Option<BotExecutorAnnotation>): (r: seq<FunctionInfo>)
    ensures (bot.None? || !bot.value.enabled) ==> r == []
    ensures bot.Some? && bot.value.enabled ==> r == FunctionInfos(ms, bot.value, |ms|)
  {
    if bot.None? || !bot.value.enabled then [] else FunctionInfos(ms, bot.value, |ms|)
  }

  /** findFunctionInfo / the stream filter-findFirst: the first description
      whose name equals the requested one. */
  function FindFunction(infos: seq<FunctionInfo>, name: string): (r: Option<FunctionInfo>)
    ensures r.None? <==> forall k :: 0 <= k < |infos| ==> infos[k].name != name
    ensures r.Some? ==> exists k :: 0 <= k < |infos| && infos[k] == r.value && r.value.name == name
                                    && forall j :: 0 <= j < k ==> infos[j].name != name
  {
    if infos == [] then None
    else if infos[0].name == name then Some(infos[0])
    else
      var r := FindFunction(infos[1..], name);
      assert forall k :: 1 <= k < |infos| ==> infos[k] == infos[1..][k - 1];
      r
  }

  /** With distinct names, looking a description up by its own name finds
      that description. */
  lemma FindFunctionDistinct(infos: seq<FunctionInfo>, k: int)
    requires 0 <= k < |infos|
    requires forall i, j :: 0 <= i < j < |infos| ==> infos[i].name != infos[j].name
    ensures FindFunction(infos, infos[k].name) == Some(infos[k])
  {
  }

  // ---------------------------------------------------------------------
  // convertArgumentToParameterType

  /** An argument as Jackson reads it from the call's JSON: null, a String,
      an integral number (Integer, Long or BigInteger), a Boolean, or any
      other value (a Double, a List, a Map), which stays abstract as O. */
  datatype ArgValue<O> = Null | Text(s: string) | Integral(n: int) | Bool(b: bool) | Other(o: O)

  /** What the conversion asks of the values kept abstract: their
      toString, their intValue when they are a Number, and the branches not
      written out here (convertToList, the Double branch, the assignable
      pass-through and objectMapper.convertValue). */
  datatype OtherValues<!O> = OtherValues(
    text: O -> string,
    intValue: O -> Option<int>,
    convert: (ArgValue<O>, JavaClass) -> Result<ArgValue<O>>)

  /** toString of a non-null argument. */
  function ArgText<O>(v: ArgValue<O>, others: OtherValues<O>): string {
    match v
    case Null => "null"
    case Text(s) => s
    case Integral(n) => IntToString(n)
    case Bool(b) => if b then "true" else "false"
    case Other(o) => others.text(o)
  }

  /** Number.intValue: the low 32 bits of an integral number; None when
      the argument is not a Number. */
  function IntValue<O>(v: ArgValue<O>, others: OtherValues<O>): (r: Option<int>)
    ensures r.Some? ==> INT_MIN <= r.value <= INT_MAX
  {
    match v
    case Integral(n) => Some(Wrap32(n))
    case Other(o) => if others.intValue(o).Some? then Some(Wrap32(others.intValue(o).value)) else None
    case _ => None
  }

  /** The BusinessException every exception inside the conversion becomes. */
  function ConversionFailure(c: JavaClass): Failure {
    BusinessException("Failed to convert argument to parameter type: " + c.name)
  }

  function Wrapped<O>(r: Result<ArgValue<O>>, c: JavaClass): Result<ArgValue<O>> {
    if r.Ok? then r else Err(ConversionFailure(c))
  }

  /** convertArgumentToParameterType: null stays null; a List parameter and
      every type past Boolean go to the abstract branches; a String
      parameter takes toString, an Integer parameter intValue or parseInt,
      a Boolean parameter the Boolean or parseBoolean. Every failure is
      wrapped with the parameter type's name. */
  function ConvertArgument<O>(v: ArgValue<O>, c: JavaClass, others: OtherValues<O>): (r: Result<ArgValue<O>>)
    ensures v.Null? ==> r == Ok(Null)
    ensures r.Err? ==> r.error == ConversionFailure(c)
  {
    if v.Null? then Ok(Null)
    else if c.isList then Wrapped(others.convert(v, c), c)
    else if IsStringClass(c) then Ok(Text(ArgText(v, others)))
    else if IsIntegerClass(c) then
      match IntValue(v, others)
      case Some(n) => Ok(Integral(n))
      case None =>
        match ParseInt(ArgText(v, others))
        case Some(n) => Ok(Integral(n))
        case None => Err(ConversionFailure(c))
    else if IsBooleanClass(c) then
      if v.Bool? then Ok(v) else Ok(Bool(EqualsIgnoreCase(ArgText(v, others), "true")))
    else Wrapped(others.convert(v, c), c)
  }

  /** The written-out branches: a String parameter never fails and takes
      toString; an Integer parameter fails exactly when the value is neither
      a Number nor the text of an int; a Boolean parameter never fails. */
  lemma ConvertScalar<O>(v: ArgValue<O>, c: JavaClass, others: OtherValues<O>)
    requires !v.Null? && !c.isList
    ensures var r := ConvertArgument(v, c, others);
      && (IsStringClass(c) ==> r == Ok(Text(ArgText(v, others))))
      && (IsIntegerClass(c) ==>
            && (r.Ok? <==> IntValue(v, others).Some? || ParseInt(ArgText(v, others)).Some?)
            && (r.Ok? ==> r.value.Integral? && INT_MIN <= r.value.n <= INT_MAX))
      && (IsBooleanClass(c) ==>
            && r.Ok? && r.value.Bool?
            && (v.Bool? ==> r.value == v)
            && (!v.Bool? ==> (r.value.b <==> EqualsIgnoreCase(ArgText(v, others), "true"))))
  {
  }

  /** An int sent as a number or as its decimal text reaches an Integer
      parameter as that int. */
  lemma IntegerRoundTrip<O>(n: int, c: JavaClass, others: OtherValues<O>)
    requires INT_MIN <= n <= INT_MAX && !c.isList && IsIntegerClass(c)
    ensures ConvertArgument(Integral(n), c, others) == Ok(Integral(n))
    ensures ConvertArgument(Text(IntToString(n)), c, others) == Ok(Integral(n))
  {
    ParseIntToString(n);
  }

  /** A Boolean sent to an Integer parameter fails: parseInt rejects
      "true" and "false". */
  lemma BooleanToIntegerFails<O>(b: bool, c: JavaClass, others: OtherValues<O>)
    requires !c.isList && IsIntegerClass(c)
    ensures ConvertArgument(Bool(b), c, others) == Err(ConversionFailure(c))
  {
    var v: ArgValue<O> := Bool(b);
    assert !IsDigit(ArgText(v, others)[0]);
  }

  /** "true" and "false", in any case, reach a Boolean parameter as that
      Boolean. */
  lemma BooleanTextRoundTrip<O>(b: bool, c: JavaClass, others: OtherValues<O>)
    requires !c.isList && IsBooleanClass(c)
    ensures ConvertArgument(Text(if b then "TRUE" else "false"), c, others) == Ok(Bool(b))
  {
    if b {
      assert forall i :: 0 <= i < 4 ==> ToLower("TRUE"[i]) == ToLower("true"[i]);
    }
  }

  // ---------------------------------------------------------------------
  // prepareMethodArguments and the call on an instance

  /** The argument for one parameter: only annotated parameters are looked
      up, by the raw annotation name; a missing key stays null and a present
      value goes through the conversion, which may fail. */
  function ArgumentFor<O>(p: Param, args: map<string, ArgValue<O>>, others: OtherValues<O>): Result<ArgValue<O>>
  {
    if p.annotation.None? || p.annotation.value.name !in args then Ok(Null)
    else ConvertArgument(args[p.annotation.value.name], p.typ, others)
  }

  /** The arguments for the first n parameters, or the first conversion
      failure. */
  function PreparedArguments<O>(ps: seq<Param>, args: map<string, ArgValue<O>>, others: OtherValues<O>, n: nat)
    : (r: Result<seq<ArgValue<O>>>)
    requires n <= |ps|
    ensures r.Ok? ==> |r.value| == n
    ensures r.Ok? ==> forall k :: 0 <= k < n ==> ArgumentFor(ps[k], args, others) == Ok(r.value[k])
    ensures r.Err? <==> exists k :: 0 <= k < n && ArgumentFor(ps[k], args, others).Err?
  {
    if n == 0 then Ok([])
    else
      match PreparedArguments(ps, args, others, n - 1)
      case Err(e) => Err(e)
      case Ok(xs) =>
        match ArgumentFor(ps[n - 1], args, others)
        case Err(e) => Err(e)
        case Ok(x) => Ok(xs + [x])
  }

  /** A parameter of type String or Boolean never makes the preparation
      fail, whatever was sent for it. */
  lemma {:induction false} SimpleParametersNeverFail<O>(ps: seq<Param>, args: map<string, ArgValue<O>>,
                                                        others: OtherValues<O>, n: nat)
    requires n <= |ps|
    requires forall k :: 0 <= k < |ps| ==> !ps[k].typ.isList && (IsStringClass(ps[k].typ) || IsBooleanClass(ps[k].typ))
    ensures PreparedArguments(ps, args, others, n).Ok?
  {
    if n > 0 {
      SimpleParametersNeverFail(ps, args, others, n - 1);
      var p := ps[n - 1];
      if p.annotation.Some? && p.annotation.value.name in args && !args[p.annotation.value.name].Null? {
        ConvertScalar(args[p.annotation.value.name], p.typ, others);
      }
    }
  }

  /** The first conversion failure decides the outcome of every longer
      prefix. */
  lemma {:induction false} PreparedFailureStays<O>(ps: seq<Param>, args: map<string, ArgValue<O>>,
                                                  others: OtherValues<O>, i: nat, n: nat)
    requires i < n <= |ps|
    requires PreparedArguments(ps, args, others, i).Ok?
    requires ArgumentFor(ps[i], args, others).Err?
    ensures PreparedArguments(ps, args, others, n) == Err(ArgumentFor(ps[i], args, others).error)
  {
    if n > i + 1 {
      PreparedFailureStays(ps, args, others, i, n - 1);
      PreparedErrStep(ps, args, others, n);
    }
  }

  /** A failure among the first n - 1 parameters is the outcome for n. */
  lemma PreparedErrStep<O>(ps: seq<Param>, args: map<string, ArgValue<O>>, others: OtherValues<O>, n: nat)
    requires 0 < n <= |ps| && PreparedArguments(ps, args, others, n - 1).Err?
    ensures PreparedArguments(ps, args, others, n) == PreparedArguments(ps, args, others, n - 1)
  {
  }

  /** One more parameter whose conversion succeeds extends the prepared
      arguments by its value. */
  lemma PreparedStep<O>(ps: seq<Param>, args: map<string, ArgValue<O>>, others: OtherValues<O>,
                        i: nat, xs: seq<ArgValue<O>>)
    requires i < |ps| && PreparedArguments(ps, args, others, i) == Ok(xs)
    requires ArgumentFor(ps[i], args, others).Ok?
    ensures PreparedArguments(ps, args, others, i + 1) == Ok(xs + [ArgumentFor(ps[i], args, others).value])
  {
  }

  /** prepareMethodArguments: fills an array with one slot per parameter. */
  method PrepareMethodArguments<O>(ps: seq<Param>, args: map<string, ArgValue<O>>, others: OtherValues<O>)
    returns (r: Result<array<ArgValue<O>>>)
    ensures r.Err? <==> PreparedArguments(ps, args, others, |ps|).Err?
    ensures r.Err? ==> r.error == PreparedArguments(ps, args, others, |ps|).error
    ensures r.Ok? ==> fresh(r.value) && r.value[..] == PreparedArguments(ps, args, others, |ps|).value
  {
    var a := new ArgValue<O>[|ps|](_ => Null);
    var i := 0;
    while i < |ps|
      invariant 0 <= i <= |ps|
      invariant PreparedArguments(ps, args, others, i) == Ok(a[..i])
    {
      var x := ArgumentFor(ps[i], args, others);
      if x.Err? {
        PreparedFailureStays(ps, args, others, i, |ps|);
        return Err(x.error);
      }
      PreparedStep(ps, args, others, i, a[..i]);
      a[i] := x.value;
      assert a[..i + 1] == a[..i] + [x.value];
      i := i + 1;
    }
    assert a[..] == a[..|ps|];
    return Ok(a);
  }

  /** The advertised parameter name is the lookup key exactly when the
      annotation names the parameter with something non-blank. */
  lemma AdvertisedNameIsLookupKey(p: Param, index: nat)
    requires p.annotation.Some? && !TrimEmpty(p.annotation.value.name)
    ensures ParameterName(p, index) == p.annotation.value.name
  {
  }

  /** A blank annotation name is advertised under the reflected name but
      still looked up under the blank one, so the value sent for the
      advertised name never reaches the method. */
  lemma BlankAnnotationNameMisses<O>(p: Param, index: nat, v: ArgValue<O>, others: OtherValues<O>)
    requires p.annotation == Some(ParameterAnnotation(" ", true, "d")) && p.reflectedName == Some("city")
    ensures ParameterName(p, index) == "city"
    ensures ArgumentFor(p, map["city" := v], others) == Ok(Null)
  {
    assert TrimEmpty(" ");
  }

  /** executeFunctionCallOnInstance up to the reflective invoke: the
      function is looked up before the arguments are parsed, and the
      result is the chosen description with its prepared arguments. */
  function CallOnInstance<O>(infos: seq<FunctionInfo>, name: string, json: string,
                             parse: string -> Option<map<string, ArgValue<O>>>, others: OtherValues<O>)
    : (r: Result<(FunctionInfo, seq<ArgValue<O>>)>)
    ensures FindFunction(infos, name).None? ==>
      r == Err(IllegalArgument("Function not found in instance: " + name))
    ensures FindFunction(infos, name).Some? && parse(json).None? ==>
      r == Err(BusinessException("Failed to parse function arguments: " + json))
    ensures r.Ok? ==> r.value.0.name == name && r.value.0 in infos
    ensures r.Ok? ==> |r.value.1| == |r.value.0.decl.params|
  {
    match FindFunction(infos, name)
    case None => Err(IllegalArgument("Function not found in instance: " + name))
    case Some(info) =>
      match parse(json)
      case None => Err(BusinessException("Failed to parse function arguments: " + json))
      case Some(args) =>
        match PreparedArguments(info.decl.params, args, others, |info.decl.params|)
        case Err(e) => Err(e)
        case Ok(xs) => Ok((info, xs))
  }

  /** executeFunctionCall up to the reflective invoke: an unknown name is
      an IllegalArgumentException. */
  function Call<O>(infos: seq<FunctionInfo>, name: string, args: map<string, ArgValue<O>>,
                   others: OtherValues<O>)
    : (r: Result<(FunctionInfo, seq<ArgValue<O>>)>)
    ensures FindFunction(infos, name).None? ==> r == Err(IllegalArgument("Function not found: " + name))
    ensures r.Ok? ==> r.value.0.name == name && r.value.0 in infos
    ensures r.Ok? ==> |r.value.1| == |r.value.0.decl.params|
  {
    match FindFunction(infos, name)
    case None => Err(IllegalArgument("Function not found: " + name))
    case Some(info) =>
      match PreparedArguments(info.decl.params, args, others, |info.decl.params|)
      case Err(e) => Err(e)
      case Ok(xs) => Ok((info, xs))
  }
}
