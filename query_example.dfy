/**
 * A worked instance of the query encoder with the platform's `urlQueryAllowed` set:
 * `["q": "a b", "ids": [1, 2]]` becomes `ids%5B%5D=1&ids%5B%5D=2&q=a%20b`.
 * `NestedListExample` states it; the lemmas before it are its steps, each small enough
 * for the solver on its own: the characters involved, the escaped keys and values, the
 * key order, the components and the rendering.
 */
module QueryExample {
  import opened Text
  import opened KeyOrder
  import opened Query

  lemma ExampleAllowed()
    ensures var allowed := EscapeAllowed(UrlQueryAllowed);
      && 'i' in allowed && 'd' in allowed && 's' in allowed && 'q' in allowed
      && 'a' in allowed && 'b' in allowed && '1' in allowed && '2' in allowed
  {
  }

  lemma ExampleExcluded()
    ensures var allowed := EscapeAllowed(UrlQueryAllowed);
      ' ' !in allowed && '[' !in allowed && ']' !in allowed
  {
  }

  lemma ExamplePercent()
    ensures PercentEncoded(Utf8('[')) == "%5B"
    ensures PercentEncoded(Utf8(']')) == "%5D"
    ensures PercentEncoded(Utf8(' ')) == "%20"
  {
    assert Utf8('[') == [0x5B] && Utf8(']') == [0x5D] && Utf8(' ') == [0x20];
    assert HexDigit(5) == '5' && HexDigit(0xB) == 'B' && HexDigit(0xD) == 'D' && HexDigit(2) == '2' && HexDigit(0) == '0';
  }

  lemma ExampleEscapeValueChars()
    ensures var allowed := EscapeAllowed(UrlQueryAllowed);
      EscapeChar(allowed, 'a') == "a" && EscapeChar(allowed, 'b') == "b" && EscapeChar(allowed, ' ') == "%20"
  {
    ExampleAllowed();
    ExampleExcluded();
    ExamplePercent();
  }

  lemma ExampleEscapeB()
    ensures Escape(UrlQueryAllowed, "b") == "b"
  {
    ExampleEscapeValueChars();
    EscapeCons(UrlQueryAllowed, 'b', "");
    assert ['b'] + "" == "b";
  }

  lemma ExampleEscapeSpaceB()
    ensures Escape(UrlQueryAllowed, " b") == "%20b"
  {
    ExampleEscapeValueChars();
    ExampleEscapeB();
    EscapeCons(UrlQueryAllowed, ' ', "b");
    assert [' '] + "b" == " b";
  }

  lemma ExampleEscapeValue()
    ensures Escape(UrlQueryAllowed, "a b") == "a%20b"
  {
    ExampleEscapeValueChars();
    ExampleEscapeSpaceB();
    EscapeCons(UrlQueryAllowed, 'a', " b");
    assert ['a'] + " b" == "a b";
  }

  lemma ExampleBracketChars()
    ensures var allowed := EscapeAllowed(UrlQueryAllowed);
      EscapeChar(allowed, '[') == "%5B" && EscapeChar(allowed, ']') == "%5D"
  {
    ExampleExcluded();
    ExamplePercent();
  }

  lemma ExampleEscapeClose()
    ensures Escape(UrlQueryAllowed, "]") == "%5D"
  {
    ExampleBracketChars();
    EscapeCons(UrlQueryAllowed, ']', "");
    assert [']'] + "" == "]";
  }

  lemma ExampleEscapeBrackets()
    ensures Escape(UrlQueryAllowed, "[]") == "%5B%5D"
  {
    ExampleBracketChars();
    ExampleEscapeClose();
    EscapeCons(UrlQueryAllowed, '[', "]");
    assert ['['] + "]" == "[]";
  }

  lemma ExampleEscapeLetters()
    ensures var allowed := EscapeAllowed(UrlQueryAllowed);
      EscapeChar(allowed, 'i') == "i" && EscapeChar(allowed, 'd') == "d" && EscapeChar(allowed, 's') == "s"
  {
    ExampleAllowed();
  }

  lemma ExampleEscapeSuffix()
    ensures Escape(UrlQueryAllowed, "s[]") == "s%5B%5D"
  {
    ExampleEscapeLetters();
    ExampleEscapeBrackets();
    EscapeCons(UrlQueryAllowed, 's', "[]");
    assert ['s'] + "[]" == "s[]";
  }

  lemma ExampleEscapeTail()
    ensures Escape(UrlQueryAllowed, "ds[]") == "ds%5B%5D"
  {
    ExampleEscapeLetters();
    ExampleEscapeSuffix();
    EscapeCons(UrlQueryAllowed, 'd', "s[]");
    assert ['d'] + "s[]" == "ds[]";
  }

  lemma ExampleEscapeKey()
    ensures Escape(UrlQueryAllowed, "ids[]") == "ids%5B%5D"
  {
    ExampleEscapeLetters();
    ExampleEscapeTail();
    EscapeCons(UrlQueryAllowed, 'i', "ds[]");
    assert ['i'] + "ds[]" == "ids[]";
  }

  lemma ExampleEscapeSingles()
    ensures Escape(UrlQueryAllowed, "q") == "q"
    ensures Escape(UrlQueryAllowed, "1") == "1" && Escape(UrlQueryAllowed, "2") == "2"
  {
    ExampleAllowed();
    var q := UrlQueryAllowed;
    EscapeCons(q, 'q', "");
    EscapeCons(q, '1', "");
    EscapeCons(q, '2', "");
    assert ['q'] + "" == "q" && ['1'] + "" == "1" && ['2'] + "" == "2";
  }

  lemma ExampleEscapes()
    ensures Escape(UrlQueryAllowed, "ids[]") == "ids%5B%5D"
    ensures Escape(UrlQueryAllowed, "a b") == "a%20b"
    ensures Escape(UrlQueryAllowed, "q") == "q"
    ensures Escape(UrlQueryAllowed, "1") == "1" && Escape(UrlQueryAllowed, "2") == "2"
  {
    ExampleEscapeKey();
    ExampleEscapeValue();
    ExampleEscapeSingles();
  }

  lemma ExampleOrder(parameters: map<string, Param>)
    requires parameters.Keys == {"q", "ids"}
    ensures Sorted(parameters.Keys) == ["ids", "q"]
  {
    var ks: seq<string> := ["ids", "q"];
    assert Less("ids", "q") by {
      assert "ids"[0] == 'i' && "q"[0] == 'q';
    }
    assert SortedEnumeration(ks, parameters.Keys);
    SortedEnumerationUnique(ks, Sorted(parameters.Keys), parameters.Keys);
  }

  lemma ExampleList()
    ensures Components(UrlQueryAllowed, "ids", PList([PNumber(1), PNumber(2)]))
         == [("ids%5B%5D", "1"), ("ids%5B%5D", "2")]
  {
    var list := PList([PNumber(1), PNumber(2)]);
    ExampleEscapes();
    assert IntToString(1) == "1" && IntToString(2) == "2";
    assert "ids" + "[]" == "ids[]";
    assert ItemComponents(UrlQueryAllowed, "ids", list, 2) == [];
    assert ItemComponents(UrlQueryAllowed, "ids", list, 1) == [("ids%5B%5D", "2")];
  }

  lemma ExampleKeys(parameters: map<string, Param>)
    requires parameters == map["q" := PString("a b"), "ids" := PList([PNumber(1), PNumber(2)])]
    ensures KeysComponents(UrlQueryAllowed, parameters, ["ids", "q"])
         == [("ids%5B%5D", "1"), ("ids%5B%5D", "2"), ("q", "a%20b")]
  {
    var ks: seq<string> := ["ids", "q"];
    ExampleList();
    ExampleEscapes();
    assert ks[..1] == ["ids"] && ks[..1][..0] == [];
    assert KeysComponents(UrlQueryAllowed, parameters, ks[..1]) == [("ids%5B%5D", "1"), ("ids%5B%5D", "2")];
  }

  /** Three pieces joined by one separator. */
  lemma JoinThree(a: string, b: string, c: string, sep: string)
    ensures Join([a, b, c], sep) == a + sep + (b + sep + c)
  {
    var parts := [a, b, c];
    assert parts[1..] == [b, c] && parts[1..][1..] == [c];
    assert Join([c], sep) == c;
    assert Join([b, c], sep) == b + sep + c;
  }

  lemma ExamplePieces()
    ensures Map([("ids%5B%5D", "1"), ("ids%5B%5D", "2"), ("q", "a%20b")], RenderPair)
         == ["ids%5B%5D=1", "ids%5B%5D=2", "q=a%20b"]
  {
    var cs := [("ids%5B%5D", "1"), ("ids%5B%5D", "2"), ("q", "a%20b")];
    assert RenderPair(cs[0]) == "ids%5B%5D=1" && RenderPair(cs[1]) == "ids%5B%5D=2" && RenderPair(cs[2]) == "q=a%20b";
  }

  lemma ExampleRender()
    ensures Render([("ids%5B%5D", "1"), ("ids%5B%5D", "2"), ("q", "a%20b")]) == "ids%5B%5D=1&ids%5B%5D=2&q=a%20b"
  {
    ExamplePieces();
    JoinThree("ids%5B%5D=1", "ids%5B%5D=2", "q=a%20b", "&");
  }

  /**
   * A worked instance: `{"q": "a b", "ids": [1, 2]}` encodes as
   * `ids%5B%5D=1&ids%5B%5D=2&q=a%20b`, "ids" before "q".
   */
  lemma NestedListExample()
    ensures QueryString(UrlQueryAllowed, map["q" := PString("a b"), "ids" := PList([PNumber(1), PNumber(2)])])
         == "ids%5B%5D=1&ids%5B%5D=2&q=a%20b"
  {
    var parameters := map["q" := PString("a b"), "ids" := PList([PNumber(1), PNumber(2)])];
    ExampleOrder(parameters);
    ExampleKeys(parameters);
    ExampleRender();
  }
}
