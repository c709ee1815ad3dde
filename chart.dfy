/** The chart options the dashboard hands to the charting library, as a pure function of
    its state. Only the fields that depend on the state are modelled. */
module Chart {
  import opened Catalog

  datatype ChartOptions = ChartOptions(
    titleText: string,
    xCategories: seq<string>,
    yAxisTitle: string,
    yAxisVisible: bool,
    seriesData: seq<Price>)

  const TitlePrefix: string := "Products in selected "

  /** The bars drawn before any report has been run. */
  const PlaceholderSeries: seq<Price> := [Num(6.0), Num(8.0), Num(5.0), Num(7.0), Num(3.0)]

  /** The title names the selected category, and nothing when none is selected; the x axis
      shows the report's labels, or the category list before a report; the y axis is shown
      exactly when there are report labels; the series is never empty. */
  function Options(category: string, categories: seq<string>, xs: seq<string>, ys: seq<Price>): (o: ChartOptions)
    ensures o.titleText == "" <==> category == ""
    ensures category != "" ==> o.titleText == TitlePrefix + category
    ensures o.yAxisTitle == category
    ensures o.yAxisVisible <==> xs != []
    ensures o.xCategories == if xs != [] then xs else categories
    ensures o.seriesData != []
    ensures ys != [] ==> o.seriesData == ys
    ensures ys == [] ==> o.seriesData == PlaceholderSeries
  {
    ChartOptions(
      if |category| > 0 then TitlePrefix + category else "",
      if |xs| > 0 then xs else categories,
      category,
      |xs| > 0,
      if |ys| > 0 then ys else PlaceholderSeries)
  }

  /** Different categories give different chart titles. */
  lemma TitleIdentifiesCategory(c1: string, c2: string, categories: seq<string>, xs: seq<string>, ys: seq<Price>)
    requires Options(c1, categories, xs, ys).titleText == Options(c2, categories, xs, ys).titleText
    ensures c1 == c2
  {
    var t := Options(c1, categories, xs, ys).titleText;
    if c1 != "" {
      assert c2 != "";
      assert t[|TitlePrefix|..] == c1 && t[|TitlePrefix|..] == c2;
    }
  }
}
