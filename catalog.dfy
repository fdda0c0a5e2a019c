/** The ingredient catalog as the autocomplete endpoint `GET /ingredients/autocomplete?q=...` returns
    it, and the conversion of its entries into react-select options. */
module Catalog {
  import opened Wrappers

  /** One element of the JSON array in an autocomplete reply: a string, or any other JSON value. */
  datatype Entry = Str(s: string) | NonString

  /** A react-select option `{ label, value }`; `label` is a Dafny keyword, so the field is `caption`. */
  datatype Choice<T> = Choice(caption: T, value: T)

  /** An option built from a string entry. */
  type Suggestion = Choice<string>

  /** The characters `String.prototype.trim` removes: the ECMAScript WhiteSpace set (tab, vertical
      tab, form feed, space, no-break space, the byte order mark and the Unicode space separators) and
      the LineTerminator set (line feed, carriage return, line and paragraph separators). */
  predicate IsJsWhitespace(c: char)
  {
    || c == '\t' || c == '\n' || c == '\U{000B}' || c == '\U{000C}' || c == '\r' || c == ' '
    || c == '\U{00A0}' || c == '\U{1680}' || ('\U{2000}' <= c <= '\U{200A}')
    || c == '\U{2028}' || c == '\U{2029}' || c == '\U{202F}' || c == '\U{205F}'
    || c == '\U{3000}' || c == '\U{FEFF}'
  }

  /** Drops the leading whitespace of `s`. */
  function TrimStart(s: string): string
  {
    if s != [] && IsJsWhitespace(s[0]) then TrimStart(s[1..]) else s
  }

  /** Drops the trailing whitespace of `s`. */
  function TrimEnd(s: string): string
  {
    if s != [] && IsJsWhitespace(s[|s| - 1]) then TrimEnd(s[..|s| - 1]) else s
  }

  /** `s.trim()`. */
  function Trim(s: string): string
  {
    TrimEnd(TrimStart(s))
  }

  /** `!s || s.trim() === ''` for a string `s`. */
  predicate IsBlank(s: string)
  {
    Trim(s) == ""
  }

  /** Stripping the front leaves nothing exactly when every character is whitespace, and otherwise
      leaves a string that starts with a visible character. */
  lemma {:induction false} TrimStartResult(s: string)
    ensures TrimStart(s) == [] <==> forall i :: 0 <= i < |s| ==> IsJsWhitespace(s[i])
    ensures TrimStart(s) != [] ==> !IsJsWhitespace(TrimStart(s)[0])
  {
    if s != [] && IsJsWhitespace(s[0]) {
      TrimStartResult(s[1..]);
      assert forall i :: 1 <= i < |s| ==> s[i] == s[1..][i - 1];
    }
  }

  /** Stripping the back of a string that starts with a visible character leaves it non-empty. */
  lemma {:induction false} TrimEndKeepsVisibleStart(t: string)
    requires t != [] && !IsJsWhitespace(t[0])
    ensures TrimEnd(t) != []
  {
    if IsJsWhitespace(t[|t| - 1]) {
      assert |t| > 1;
      TrimEndKeepsVisibleStart(t[..|t| - 1]);
    }
  }

  /** A string trims to nothing exactly when every character of it is whitespace. */
  lemma BlankIffAllWhitespace(s: string)
    ensures IsBlank(s) <==> forall i :: 0 <= i < |s| ==> IsJsWhitespace(s[i])
  {
    TrimStartResult(s);
    if TrimStart(s) != [] {
      TrimEndKeepsVisibleStart(TrimStart(s));
    }
  }

  /** The options of one entry under `.filter(typeof name === 'string').map(...)`. */
  function EntryOptions(e: Entry): seq<Suggestion>
  {
    if e.Str? then [Choice(e.s, e.s)] else []
  }

  /** `data.filter((name) => typeof name === 'string').map((name) => ({ label: name, value: name }))`. */
  function StringOptions(data: seq<Entry>): (r: seq<Suggestion>)
    ensures |r| <= |data|
    ensures forall k :: 0 <= k < |r| ==> r[k].caption == r[k].value && Str(r[k].value) in data
    ensures forall s :: Str(s) in data ==> Choice(s, s) in r
  {
    if data == [] then [] else EntryOptions(data[0]) + StringOptions(data[1..])
  }

  /** The filter keeps the string entries of a reply in their order: converting the concatenation of
      two replies is concatenating their conversions. With the one-entry cases of `EntryOptions` this
      determines `StringOptions` on every input. */
  lemma {:induction false} StringOptionsAppend(a: seq<Entry>, b: seq<Entry>)
    ensures StringOptions(a + b) == StringOptions(a) + StringOptions(b)
  {
    if a == [] {
      assert a + b == b;
    } else {
      assert (a + b)[1..] == a[1..] + b;
      StringOptionsAppend(a[1..], b);
    }
  }

  /** A reply made only of strings is converted entry by entry, nothing dropped. */
  lemma {:induction false} StringOptionsOfStrings(data: seq<Entry>)
    requires forall k :: 0 <= k < |data| ==> data[k].Str?
    ensures |StringOptions(data)| == |data|
    ensures forall k :: 0 <= k < |data| ==> StringOptions(data)[k] == Choice(data[k].s, data[k].s)
  {
    if data != [] {
      StringOptionsOfStrings(data[1..]);
    }
  }

  /** `data.map((name) => ({ label: name, value: name }))`: every entry, whatever its JSON type. */
  function AllOptions(data: seq<Entry>): (r: seq<Choice<Entry>>)
    ensures |r| == |data|
    ensures forall k :: 0 <= k < |data| ==> r[k] == Choice(data[k], data[k])
  {
    if data == [] then [] else [Choice(data[0], data[0])] + AllOptions(data[1..])
  }

  /** A string option seen as an option over entries. */
  function Lift(c: Suggestion): Choice<Entry>
  {
    Choice(Str(c.caption), Str(c.value))
  }

  /** The unfiltered conversion agrees with the filtered one exactly when the reply holds only
      strings; a single non-string entry makes the unfiltered list strictly longer. */
  lemma {:induction false} AllOptionsVersusStringOptions(data: seq<Entry>)
    ensures (forall k :: 0 <= k < |data| ==> data[k].Str?) <==> |StringOptions(data)| == |AllOptions(data)|
    ensures (forall k :: 0 <= k < |data| ==> data[k].Str?) ==>
              forall k :: 0 <= k < |data| ==> AllOptions(data)[k] == Lift(StringOptions(data)[k])
  {
    if data != [] {
      AllOptionsVersusStringOptions(data[1..]);
      var rest := StringOptions(data[1..]);
      assert |rest| <= |data| - 1;
      if forall k :: 0 <= k < |data| ==> data[k].Str? {
        StringOptionsOfStrings(data);
      } else if data[0].Str? {
        assert !(forall k :: 0 <= k < |data| - 1 ==> data[1..][k].Str?) by {
          var k :| 0 <= k < |data| && !data[k].Str?;
          assert data[1..][k - 1] == data[k];
        }
      }
    }
  }

  /** What the filtering `fetchSuggestions` variants resolve to once the request settles: the string
      entries of the reply as options, or nothing when the call failed. */
  function StringReplyOptions(reply: Reply<seq<Entry>>): (r: seq<Suggestion>)
    ensures reply.Err? ==> r == []
    ensures reply.Ok? ==> |r| <= |reply.payload|
    ensures reply.Ok? ==> r == StringOptions(reply.payload)
  {
    match reply
    case Ok(data) => StringOptions(data)
    case Err => []
  }

  /** The reply `["Flour", 42, null, "Sugar"]`. */
  lemma MixedReplyExample()
    ensures StringOptions([Str("Flour"), NonString, NonString, Str("Sugar")])
         == [Choice("Flour", "Flour"), Choice("Sugar", "Sugar")]
  {
  }
}
