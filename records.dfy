/** Parsed YAML documents, as the core sees them once `yaml.safe_load` has
    run: a mapping from keys to values. Reading the file and parsing the YAML
    are not part of this model; every `from_file` here starts from the
    already-parsed map. */
module Records {
  import opened Outcomes

  datatype Value =
    | Null
    | Text(text: string)
    | Flag(flag: bool)
    | Number(number: int)
    | List(items: seq<Value>)
    | Mapping(entries: map<string, Value>)

  type Record = map<string, Value>

  /** The strings of a list whose every item is a string. */
  function TextItems(items: seq<Value>): (r: Option<seq<string>>)
    ensures r.Some? ==> |r.value| == |items|
    ensures r.Some? <==> forall i :: 0 <= i < |items| ==> items[i].Text?
    decreases |items|
  {
    if |items| == 0 then Some([])
    else if !items[0].Text? then None
    else
      var rest := TextItems(items[1..]);
      assert forall i :: 1 <= i < |items| ==> items[i] == items[1..][i - 1];
      if rest.None? then None else Some([items[0].text] + rest.value)
  }

  lemma {:induction false} TextItemsAt(items: seq<Value>, i: nat)
    requires TextItems(items).Some? && i < |items|
    ensures TextItems(items).value[i] == items[i].text
    decreases i
  {
    if i > 0 {
      assert items[1..][i - 1] == items[i];
      TextItemsAt(items[1..], i - 1);
    }
  }

  /** A list of strings as a value. */
  function TextList(strings: seq<string>): (v: Value)
    ensures v.List? && |v.items| == |strings|
  {
    List(seq(|strings|, i requires 0 <= i < |strings| => Text(strings[i])))
  }

  /** Reading back a list of strings gives the strings. */
  lemma {:induction false} TextItemsOfTextList(strings: seq<string>)
    ensures TextItems(TextList(strings).items) == Some(strings)
    decreases |strings|
  {
    if |strings| > 0 {
      var items := TextList(strings).items;
      assert items[1..] == TextList(strings[1..]).items;
      TextItemsOfTextList(strings[1..]);
      assert strings == [strings[0]] + strings[1..];
    }
  }

  /** An optional string field: absent or null is None, a string is itself;
      anything else has the wrong shape. */
  function OptionalText(d: Record, key: string): (r: Result<Option<string>>)
    ensures r.Err? <==> key in d && !d[key].Null? && !d[key].Text?
    ensures r.Ok? && r.value.Some? <==> key in d && d[key].Text?
  {
    if key !in d || d[key].Null? then Ok(None)
    else if d[key].Text? then Ok(Some(d[key].text))
    else Err(WrongShape(key))
  }

  /** An optional list-of-strings field. */
  function OptionalTextList(d: Record, key: string): (r: Result<Option<seq<string>>>)
    ensures r.Ok? && r.value.Some? <==> key in d && d[key].List? && TextItems(d[key].items).Some?
    ensures r.Ok? && r.value.Some? ==> r.value.value == TextItems(d[key].items).value
    ensures r.Ok? && r.value.None? <==> key !in d || d[key].Null?
  {
    if key !in d || d[key].Null? then Ok(None)
    else if d[key].List? && TextItems(d[key].items).Some? then Ok(Some(TextItems(d[key].items).value))
    else Err(WrongShape(key))
  }

  /** An optional boolean field. */
  function OptionalFlag(d: Record, key: string): (r: Result<Option<bool>>)
    ensures r.Ok? && r.value.Some? <==> key in d && d[key].Flag?
    ensures r.Ok? && r.value.Some? ==> r.value.value == d[key].flag
    ensures r.Ok? && r.value.None? <==> key !in d || d[key].Null?
  {
    if key !in d || d[key].Null? then Ok(None)
    else if d[key].Flag? then Ok(Some(d[key].flag))
    else Err(WrongShape(key))
  }
}
