/** Cheatsheets of fourhills/cheatsheet.py: titled sections of notes for the
    game master, and their construction from a parsed YAML file. */
module Cheatsheets {
  import opened Outcomes
  import opened TextUtils
  import opened Records

  /** `Cheatsheet.Section`. */
  datatype Section = Section(title: string, content: seq<string>)

  datatype Cheatsheet = Cheatsheet(description: string, sections: seq<Section>)

  /** `Section.lines(line_width)`. */
  function SectionLines(wrap: Wrapper, section: Section, w: int): seq<string> {
    WrappedLines(wrap, Title(section.title, w) + section.content, w)
  }

  /** A section's lines are its wrapped centred title, its wrapped rule, then
      each content line wrapped, in order. */
  lemma SectionLinesParts(wrap: Wrapper, section: Section, w: int)
    ensures var t := Title(section.title, w);
            SectionLines(wrap, section, w) ==
              wrap(CentrePad(section.title, w), w) + wrap(t[1], w)
              + WrappedLines(wrap, section.content, w)
  {
    var t := Title(section.title, w);
    WrappedLinesAppend(wrap, t, section.content, w);
    assert t == [t[0]] + [t[1]];
    WrappedLinesAppend(wrap, [t[0]], [t[1]], w);
    WrappedLinesSingle(wrap, t[0], w);
    WrappedLinesSingle(wrap, t[1], w);
  }

  /** Every line of a section fits the width. */
  lemma SectionLinesWithin(wrap: Wrapper, section: Section, w: int)
    requires WrapBounded(wrap) && IndentWidth < w
    ensures LinesWithin(SectionLines(wrap, section, w), w)
  {
    WrappedLinesWithin(wrap, Title(section.title, w) + section.content, w);
  }

  /** `__str__`. */
  function ToString(sheet: Cheatsheet): string {
    "Cheatsheet: \"" + sheet.description + "\""
  }

  const ToStringPrefix := "Cheatsheet: \""

  /** The description can be read back from the string between the opening
      quote and the final one. */
  lemma ToStringDescription(sheet: Cheatsheet)
    ensures var s := ToString(sheet);
            && |s| == |ToStringPrefix| + |sheet.description| + 1
            && s[..|ToStringPrefix|] == ToStringPrefix
            && s[|ToStringPrefix| .. |s| - 1] == sheet.description
            && s[|s| - 1] == '"'
  {
  }

  /** `Cheatsheet.Section(**section_dict)`: exactly the two keyword arguments
      `section_title` and `section_content`. */
  function SectionFromValue(v: Value): (r: Result<Section>)
    ensures r.Ok? ==> v.Mapping? && v.entries.Keys == {"section_title", "section_content"}
    ensures r.Ok? ==> Text(r.value.title) == v.entries["section_title"]
                      && TextList(r.value.content) == v.entries["section_content"]
  {
    if !v.Mapping? || v.entries.Keys != {"section_title", "section_content"} then Err(BadArguments("Section"))
    else if !v.entries["section_title"].Text? then Err(WrongShape("section_title"))
    else
      var content := v.entries["section_content"];
      if !content.List? || TextItems(content.items).None? then Err(WrongShape("section_content"))
      else
        var strings := TextItems(content.items).value;
        TextListOfTextItems(content.items);
        Ok(Section(v.entries["section_title"].text, strings))
  }

  /** Reading a list of strings and writing it back gives the list. */
  lemma TextListOfTextItems(items: seq<Value>)
    requires TextItems(items).Some?
    ensures TextList(TextItems(items).value) == List(items)
  {
    var strings := TextItems(items).value;
    forall i | 0 <= i < |items| ensures TextList(strings).items[i] == items[i] {
      TextItemsAt(items, i);
    }
  }

  /** `Cheatsheet.from_file` after the YAML is loaded; `stem` is the file's stem. */
  function CheatsheetFromRecord(stem: string, d: Record): Result<Cheatsheet> {
    if "description" !in d then Err(MissingKey(stem, "description"))
    else if "sections" !in d then Err(MissingKey(stem, "sections"))
    else if !d["description"].Text? then Err(WrongShape("description"))
    else if !d["sections"].List? then Err(WrongShape("sections"))
    else
      var sections :- MapAll(d["sections"].items, SectionFromValue);
      Ok(Cheatsheet(d["description"].text, sections))
  }

  /** A missing description is reported first, even when the sections are
      missing too; a missing sections key is reported next. */
  lemma CheatsheetMissingKeys(stem: string, d: Record)
    ensures "description" !in d ==> CheatsheetFromRecord(stem, d) == Err(MissingKey(stem, "description"))
    ensures "description" in d && "sections" !in d ==>
      CheatsheetFromRecord(stem, d) == Err(MissingKey(stem, "sections"))
  {
  }

  /** With both keys well formed, loading fails exactly when some item of the
      sections list is not a section, and then with the first such item's error. */
  lemma CheatsheetSectionErrors(stem: string, d: Record, i: nat)
    requires "description" in d && d["description"].Text?
    requires "sections" in d && d["sections"].List?
    ensures CheatsheetFromRecord(stem, d).Ok? <==>
      forall k :: 0 <= k < |d["sections"].items| ==> SectionFromValue(d["sections"].items[k]).Ok?
    ensures var items := d["sections"].items;
            i < |items| && SectionFromValue(items[i]).Err? && (forall k :: 0 <= k < i ==> SectionFromValue(items[k]).Ok?) ==>
              CheatsheetFromRecord(stem, d) == Err(SectionFromValue(items[i]).error)
  {
    var items := d["sections"].items;
    MapAllOk(items, SectionFromValue);
    if i < |items| && SectionFromValue(items[i]).Err? && (forall k :: 0 <= k < i ==> SectionFromValue(items[k]).Ok?) {
      MapAllFirstError(items, SectionFromValue, i);
    }
  }

  /** A loaded cheatsheet has the file's description and one section per item
      of its list, in the list's order. */
  lemma CheatsheetFromRecordSections(stem: string, d: Record)
    requires CheatsheetFromRecord(stem, d).Ok?
    ensures var sheet := CheatsheetFromRecord(stem, d).value;
            && "description" in d && d["description"] == Text(sheet.description)
            && "sections" in d && d["sections"].List?
            && |sheet.sections| == |d["sections"].items|
            && forall i :: 0 <= i < |sheet.sections| ==>
                 SectionFromValue(d["sections"].items[i]) == Ok(sheet.sections[i])
  {
    var sheet := CheatsheetFromRecord(stem, d).value;
    forall i | 0 <= i < |sheet.sections|
      ensures SectionFromValue(d["sections"].items[i]) == Ok(sheet.sections[i])
    {
      MapAllAt(d["sections"].items, SectionFromValue, i);
    }
  }
}
