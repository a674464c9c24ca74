/**
 * The text of a slice label and of a legend entry (WPieChart::labelText).
 */
module Labels {

  /** The label display flags (WFlags<LabelOption>); no flag set means NoLabels. */
  datatype LabelOption = Inside | Outside | TextLabel | TextPercentage

  /**
   * The name part of a label: the display text of the row's cell in the label
   * column, but only when the text-label flag is set and a label column is
   * configured (-1 means unset).
   */
  function NamePart(options: set<LabelOption>, labelsColumn: int, name: string): (part: string)
    ensures TextLabel in options && labelsColumn != -1 ==> part == name
    ensures TextLabel !in options || labelsColumn == -1 ==> part == []
  {
    if TextLabel in options && labelsColumn != -1 then name else ""
  }

  /**
   * The label of one row. `name` is the display text of the row's cell in the
   * label column; `percent` is the `%.3g` rendering of the row's share of the
   * total, times 100, which the chart follows with a percent sign.
   */
  function LabelText(options: set<LabelOption>, labelsColumn: int, name: string, percent: string): (text: string)
    ensures TextPercentage !in options ==> text == NamePart(options, labelsColumn, name)
    ensures TextLabel !in options && TextPercentage !in options ==> text == []
    ensures text == [] <==> TextPercentage !in options && NamePart(options, labelsColumn, name) == []
    ensures TextPercentage in options ==>
      var np := NamePart(options, labelsColumn, name);
      && np <= text
      && |text| == |np| + (if np == [] then 0 else 2) + |percent| + 1
      && (np != [] ==> text[|np|..|np| + 2] == ": ")
      && text[|text| - |percent| - 1..] == percent + "%"
  {
    var text := NamePart(options, labelsColumn, name);
    if TextPercentage in options then
      (if text != [] then text + ": " else text) + percent + "%"
    else
      text
  }

  /** With both flags, the name "Fruit" and a share of 25, the label reads "Fruit: 25%". */
  lemma FruitLabel()
    ensures LabelText({TextLabel, TextPercentage}, 0, "Fruit", "25") == "Fruit: 25%"
  {
  }

  /** Without a label column the percentage stands alone, with no separator. */
  lemma PercentageOnlyWithoutLabelColumn(options: set<LabelOption>, name: string, percent: string)
    requires TextPercentage in options
    ensures LabelText(options, -1, name, percent) == percent + "%"
  {
  }
}
