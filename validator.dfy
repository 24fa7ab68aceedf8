/**
 * `parse_json_array` (app.py): accept a completion only when it decodes to a
 * list whose every element is a string; return those strings stripped, in
 * order, with the blank ones dropped. Anything else, a decoding error
 * included, gives `None`. A list of blank strings gives `Some([])`, which the
 * caller treats as a failure like `None`.
 */
module Validator {
  import opened Wrappers
  import opened Text
  import opened Json

  predicate AllStrings(items: seq<JsonValue>) {
    forall k :: 0 <= k < |items| ==> items[k].JString?
  }

  function StringsOf(items: seq<JsonValue>): (r: seq<string>)
    requires AllStrings(items)
    ensures |r| == |items|
    ensures forall k :: 0 <= k < |items| ==> r[k] == items[k].s
  {
    if items == [] then [] else [items[0].s] + StringsOf(items[1..])
  }

  /** An element `parse_json_array` keeps: non-blank and already stripped. */
  predicate IsSuggestion(x: string) {
    x != [] && IsStripped(x)
  }

  /** `[x.strip() for x in xs if x.strip()]` */
  function KeepNonBlank(xs: seq<string>): (r: seq<string>)
    ensures |r| <= |xs|
  {
    if xs == [] then []
    else
      var x := Strip(xs[0]);
      var rest := KeepNonBlank(xs[1..]);
      if x == [] then rest else [x] + rest
  }

  /** Every element the comprehension keeps is non-blank and stripped. */
  lemma {:induction false} KeepNonBlankSuggestions(xs: seq<string>)
    ensures forall k :: 0 <= k < |KeepNonBlank(xs)| ==> IsSuggestion(KeepNonBlank(xs)[k])
    decreases |xs|
  {
    if xs != [] {
      KeepNonBlankSuggestions(xs[1..]);
    }
  }

  /** `parse_json_array(text)`, with `loads` standing for `json.loads`. */
  function ParseJsonArray(text: string, loads: string -> Option<JsonValue>): (r: Option<seq<string>>)
    ensures r.None? <==>
      || loads(text).None?
      || !loads(text).value.JArray?
      || exists k :: 0 <= k < |loads(text).value.items| && !loads(text).value.items[k].JString?
    ensures r.Some? ==> |r.value| <= |loads(text).value.items|
    ensures r.Some? ==> forall k :: 0 <= k < |r.value| ==> IsSuggestion(r.value[k])
  {
    match loads(text)
    case Some(JArray(items)) =>
      if AllStrings(items) then
        KeepNonBlankSuggestions(StringsOf(items));
        Some(KeepNonBlank(StringsOf(items)))
      else None
    case _ => None
  }

  // ---------------------------------------------------------------------------
  // Order and content of what is kept
  // ---------------------------------------------------------------------------

  /** Filtering a concatenation filters each part, keeping the parts in order. */
  lemma {:induction false} KeepNonBlankAppend(xs: seq<string>, ys: seq<string>)
    ensures KeepNonBlank(xs + ys) == KeepNonBlank(xs) + KeepNonBlank(ys)
    decreases |xs|
  {
    if xs == [] {
      assert xs + ys == ys;
    } else {
      assert (xs + ys)[0] == xs[0];
      assert (xs + ys)[1..] == xs[1..] + ys;
      KeepNonBlankAppend(xs[1..], ys);
    }
  }

  /** One element is kept stripped, or dropped when it is blank. */
  lemma KeepNonBlankSingle(x: string)
    ensures KeepNonBlank([x]) == if Strip(x) == [] then [] else [Strip(x)]
  {
    assert [x][1..] == [];
  }

  /** A list that already holds only suggestions is kept whole: the filter is idempotent. */
  lemma {:induction false} KeepNonBlankFixpoint(xs: seq<string>)
    requires forall k :: 0 <= k < |xs| ==> IsSuggestion(xs[k])
    ensures KeepNonBlank(xs) == xs
    decreases |xs|
  {
    if xs != [] {
      var tail := xs[1..];
      assert xs == [xs[0]] + tail;
      KeepNonBlankFixpoint(tail);
      StrippedFixpoint(xs[0]);
    }
  }

  // ---------------------------------------------------------------------------
  // Examples
  // ---------------------------------------------------------------------------

  /** Text that is not JSON at all is refused. */
  lemma RejectsUndecodable(text: string, loads: string -> Option<JsonValue>)
    requires loads(text) == None
    ensures ParseJsonArray(text, loads) == None
  {
  }

  /** `["a", 2, "b"]` is refused: one element is not a string. */
  lemma RejectsMixedList(text: string, loads: string -> Option<JsonValue>)
    requires loads(text) == Some(JArray([JString("a"), JNumber("2"), JString("b")]))
    ensures ParseJsonArray(text, loads) == None
  {
    assert !loads(text).value.items[1].JString?;
  }

  /** Stripping the sample element leaves its one letter. */
  lemma SampleStrip()
    ensures Strip("  X  ") == "X"
  {
    assert AllSpace("  ");
    StripAround("  ", "X", "  ");
    assert "  " + "X" + "  " == "  X  ";
  }

  /** `["  X  "]` gives `["X"]`. */
  lemma StripsElements(text: string, loads: string -> Option<JsonValue>)
    requires loads(text) == Some(JArray([JString("  X  ")]))
    ensures ParseJsonArray(text, loads) == Some(["X"])
  {
    assert StringsOf([JString("  X  ")]) == ["  X  "];
    SampleStrip();
    KeepNonBlankSingle("  X  ");
  }

  /** `["", "  "]` gives the empty list, not `None`. */
  lemma BlankListIsEmpty(text: string, loads: string -> Option<JsonValue>)
    requires loads(text) == Some(JArray([JString(""), JString("  ")]))
    ensures ParseJsonArray(text, loads) == Some([])
  {
    var items := [JString(""), JString("  ")];
    assert StringsOf(items) == ["", "  "];
    assert Strip("") == [];
    assert Strip("  ") == [] by {
      assert AllSpace("  ");
    }
    KeepNonBlankAppend([""], ["  "]);
    assert [""] + ["  "] == ["", "  "];
    KeepNonBlankSingle("");
    KeepNonBlankSingle("  ");
    assert [""] + ["  "] == ["", "  "];
  }
}
