/** The content-type table: a file path's extension decides its Content-Type. */
module Mime {
  import opened Strings

  const WasmType := "application/wasm"
  const HtmlType := "text/html"
  const JsType := "application/javascript"
  const CssType := "text/css"
  const PlainType := "text/plain"

  /** Every Content-Type a static file can be served with. */
  const MimeTypes: set<string> := {WasmType, HtmlType, JsType, CssType, PlainType}

  /** The suffix table as data: each suffix with its type, in the order they are tried. */
  const SuffixTable: seq<(string, string)> :=
    [(".wasm", WasmType), (".html", HtmlType), (".js", JsType), (".css", CssType)]

  /** `get_mime_type`: the first suffix of the chain that matches decides; otherwise plain text. */
  function GetMimeType(path: string): (m: string)
    ensures m in MimeTypes
  {
    if EndsWith(path, ".wasm") then WasmType
    else if EndsWith(path, ".html") then HtmlType
    else if EndsWith(path, ".js") then JsType
    else if EndsWith(path, ".css") then CssType
    else PlainType
  }

  /** A generic first-match lookup over a suffix table, with a fallback. */
  function FirstMatch(table: seq<(string, string)>, path: string, fallback: string): (m: string)
    ensures m == fallback || exists i :: 0 <= i < |table| && table[i].1 == m && EndsWith(path, table[i].0)
    ensures (forall i :: 0 <= i < |table| ==> !EndsWith(path, table[i].0)) ==> m == fallback
    ensures forall i :: (0 <= i < |table| && EndsWith(path, table[i].0) &&
                         forall j :: 0 <= j < i ==> !EndsWith(path, table[j].0)) ==> m == table[i].1
    decreases |table|
  {
    if table == [] then fallback
    else if EndsWith(path, table[0].0) then table[0].1
    else FirstMatch(table[1..], path, fallback)
  }

  /** No path ends with two different suffixes of the table. */
  lemma SuffixesExclusive(path: string)
    ensures forall i, j :: 0 <= i < j < |SuffixTable| ==>
              !(EndsWith(path, SuffixTable[i].0) && EndsWith(path, SuffixTable[j].0))
  {
    forall i, j | 0 <= i < j < |SuffixTable|
      ensures !(EndsWith(path, SuffixTable[i].0) && EndsWith(path, SuffixTable[j].0))
    {
      var x, y := SuffixTable[i].0, SuffixTable[j].0;
      if |x| <= |y| {
        assert !EndsWith(y, x);
        if EndsWith(path, x) && EndsWith(path, y) {
          SuffixesNest(path, x, y);
        }
      } else {
        assert !EndsWith(x, y);
        if EndsWith(path, x) && EndsWith(path, y) {
          SuffixesNest(path, y, x);
        }
      }
    }
  }

  /** The if-chain agrees with a first-match lookup in the suffix table. */
  lemma GetMimeTypeIsTableLookup(path: string)
    ensures GetMimeType(path) == FirstMatch(SuffixTable, path, PlainType)
  {
    var t1, t2, t3, t4 := SuffixTable[1..], SuffixTable[2..], SuffixTable[3..], SuffixTable[4..];
    assert t1[1..] == t2 && t2[1..] == t3 && t3[1..] == t4 && t4 == [];
    assert FirstMatch(t4, path, PlainType) == PlainType;
    assert FirstMatch(t3, path, PlainType) == if EndsWith(path, ".css") then CssType else PlainType;
    assert FirstMatch(t2, path, PlainType) == if EndsWith(path, ".js") then JsType else FirstMatch(t3, path, PlainType);
    assert FirstMatch(t1, path, PlainType) == if EndsWith(path, ".html") then HtmlType else FirstMatch(t2, path, PlainType);
  }

  /** Each table type is chosen exactly when its suffix matches, and plain text exactly when none does;
      because the suffixes are exclusive, the order of the chain does not matter. */
  lemma GetMimeTypeIff(path: string)
    ensures GetMimeType(path) == WasmType <==> EndsWith(path, ".wasm")
    ensures GetMimeType(path) == HtmlType <==> EndsWith(path, ".html")
    ensures GetMimeType(path) == JsType <==> EndsWith(path, ".js")
    ensures GetMimeType(path) == CssType <==> EndsWith(path, ".css")
    ensures GetMimeType(path) == PlainType <==>
              !EndsWith(path, ".wasm") && !EndsWith(path, ".html") && !EndsWith(path, ".js") && !EndsWith(path, ".css")
  {
    SuffixesExclusive(path);
    assert SuffixTable[0].0 == ".wasm" && SuffixTable[1].0 == ".html";
    assert SuffixTable[2].0 == ".js" && SuffixTable[3].0 == ".css";
  }
}
