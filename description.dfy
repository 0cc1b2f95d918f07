/**
 * Parts of a server-sent description page (src/entity/description.rs): the
 * predicates that decide how a part is displayed, its label, and the split
 * of a form field's default value into the value and its unit suffix.
 * Only the fields these members read are kept.
 */
module Description {

  import opened Wrappers
  import Strings

  datatype Part = Part(
    text: Option<string>,
    formAction: Option<string>,
    inputType: Option<string>,
    labelText: Option<string>,
    name: Option<string>,
    isLink: bool,
    defaultValue: Option<string>,
    isCheckbox: bool,
    choices: Option<seq<string>>,
    searchByStr: bool)
  {
    /** `label()`: the label, or "" when there is none. */
    function Label(): (r: string)
      ensures labelText.Some? ==> r == labelText.value
      ensures labelText.None? ==> r == ""
    {
      match labelText
      case Some(l) => l
      case None => ""
    }

    /** `is_text()`: has a text or a label, and is no link, no typed input, no checkbox and no non-empty choice list. */
    predicate IsText()
    {
      var isChoice := if choices.Some? then |choices.value| != 0 else false;
      (text.Some? || labelText.Some?) && !isLink && inputType.None? && !isCheckbox && !isChoice
    }

    predicate IsInput()
    {
      name.Some? && inputType.Some?
    }

    /** `is_link()`: the link flag together with a form action. */
    predicate IsLink()
    {
      isLink && formAction.Some?
    }

    predicate IsChoices()
    {
      choices.Some? && !searchByStr
    }

    predicate IsSearchByStr()
    {
      choices.Some? && searchByStr
    }

    /** `analyze_default_value()`: the default value unchanged, with the unit it ends with if any. */
    function AnalyzeDefaultValue(): (r: Option<(string, Option<string>)>)
      ensures r.None? <==> defaultValue.None?
      ensures r.Some? ==> r.value.0 == defaultValue.value && r.value.1 == FirstSuffix(defaultValue.value, UNIT_SUFFIXES)
    {
      match defaultValue
      case Some(v) =>
        UnitSuffixIsFirstMatch(v);
        Some((v, UnitSuffix(v)))
      case None => None
    }
  }

  /** The unit suffixes, in the order they are tried. */
  const UNIT_SUFFIXES: seq<string> := ["l", "kg", "g", "m³", "u"]

  /** The if / else-if chain of `analyze_default_value` on a value. */
  function UnitSuffix(v: string): Option<string>
  {
    if Strings.EndsWith(v, "l") then Some("l")
    else if Strings.EndsWith(v, "kg") then Some("kg")
    else if Strings.EndsWith(v, "g") then Some("g")
    else if Strings.EndsWith(v, "m³") then Some("m³")
    else if Strings.EndsWith(v, "u") then Some("u")
    else None
  }

  /** The first of `suffixes` that `v` ends with. */
  function FirstSuffix(v: string, suffixes: seq<string>): (r: Option<string>)
    ensures r.Some? ==> r.value in suffixes && Strings.EndsWith(v, r.value)
    ensures r.None? ==> forall i | 0 <= i < |suffixes| :: !Strings.EndsWith(v, suffixes[i])
    decreases |suffixes|
  {
    if suffixes == [] then None
    else if Strings.EndsWith(v, suffixes[0]) then Some(suffixes[0])
    else
      var r := FirstSuffix(v, suffixes[1..]);
      assert forall i | 1 <= i < |suffixes| :: suffixes[i] == suffixes[1..][i - 1];
      r
  }

  /** The chain is the first-match search over the suffixes in order. */
  lemma UnitSuffixIsFirstMatch(v: string)
    ensures UnitSuffix(v) == FirstSuffix(v, UNIT_SUFFIXES)
  {
    var s := UNIT_SUFFIXES;
    assert s[1..] == ["kg", "g", "m³", "u"];
    assert s[1..][1..] == ["g", "m³", "u"];
    assert s[1..][1..][1..] == ["m³", "u"];
    assert s[1..][1..][1..][1..] == ["u"];
    assert FirstSuffix(v, ["u"]) == if Strings.EndsWith(v, "u") then Some("u") else FirstSuffix(v, []);
    assert FirstSuffix(v, ["m³", "u"]) == if Strings.EndsWith(v, "m³") then Some("m³") else FirstSuffix(v, ["u"]);
    assert FirstSuffix(v, ["g", "m³", "u"]) == if Strings.EndsWith(v, "g") then Some("g") else FirstSuffix(v, ["m³", "u"]);
    assert FirstSuffix(v, ["kg", "g", "m³", "u"]) ==
      if Strings.EndsWith(v, "kg") then Some("kg") else FirstSuffix(v, ["g", "m³", "u"]);
  }

  /** A value ending in "kg" gets "kg", not "g"; a value ending in none of the units gets no suffix. */
  lemma KilogramsBeforeGrams(v: string)
    ensures Strings.EndsWith(v, "kg") ==> UnitSuffix(v) == Some("kg")
    ensures (forall i | 0 <= i < |UNIT_SUFFIXES| :: !Strings.EndsWith(v, UNIT_SUFFIXES[i])) ==> UnitSuffix(v) == None
  {
    if Strings.EndsWith(v, "kg") {
      assert v[|v| - 1..] == [v[|v| - 1]] == "g";
    }
    UnitSuffixIsFirstMatch(v);
  }

  /**
   * How the predicates relate: choices and search-by-text exclude each
   * other and both need a choice list; an input has a name and a type; a
   * link has a form action; and text is ruled out by any of the link flag,
   * a type, the checkbox flag, a non-empty choice list, or having neither
   * text nor label.
   */
  lemma PartPredicates(p: Part)
    ensures !(p.IsChoices() && p.IsSearchByStr())
    ensures p.choices.None? ==> !p.IsChoices() && !p.IsSearchByStr()
    ensures p.IsInput() <==> p.name.Some? && p.inputType.Some?
    ensures p.IsLink() ==> p.formAction.Some?
    ensures (p.isLink || p.inputType.Some? || p.isCheckbox || (p.choices.Some? && |p.choices.value| > 0) ||
             (p.text.None? && p.labelText.None?)) ==> !p.IsText()
    ensures (!p.isLink && p.inputType.None? && !p.isCheckbox && (p.choices.None? || |p.choices.value| == 0) &&
             (p.text.Some? || p.labelText.Some?)) ==> p.IsText()
  {
  }

  /** `Description`, with the fields its own member reads. */
  datatype Description = Description(descriptionType: string, title: Option<string>)
  {
    /** `title()`: the title, or "" when there is none. */
    function Title(): (r: string)
      ensures title.Some? ==> r == title.value
      ensures title.None? ==> r == ""
    {
      if title.Some? then title.value else ""
    }
  }
}
