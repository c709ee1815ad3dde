/** The dashboard screen: the state it holds and the events that change it. */
module App {
  import opened Catalog
  import Report
  import Chart

  class Dashboard {
    var categories: seq<string>
    var products: Option<ProductResponse>
    var selectedCategory: string
    var selectedProducts: seq<string>
    var selectedXAxisValues: seq<string>
    var selectedYAxisValues: seq<Price>
    var loader: bool

    /** A product list is only ever loaded for a chosen category. */
    ghost predicate Valid()
      reads this
    {
      products.Some? ==> selectedCategory != ""
    }

    /** The Run Report button is enabled when a non-empty product list is loaded; a run
        from an enabled button always yields labels and values to chart. */
    function RunReportEnabled(): (enabled: bool)
      reads this
      ensures enabled <==> products.Some? && Report.AllTitles(products) != []
      ensures enabled ==> Report.XAxisValues(products, selectedProducts) != []
                          && Report.YAxisValues(products, selectedProducts) != []
    {
      products.Some? && |products.value.products| > 0
    }

    /** The chart options rendered from the current state. */
    function CurrentChart(): (o: Chart.ChartOptions)
      reads this
      ensures o.titleText == "" <==> selectedCategory == ""
      ensures o.yAxisVisible <==> selectedXAxisValues != []
    {
      Chart.Options(selectedCategory, categories, selectedXAxisValues, selectedYAxisValues)
    }

    constructor()
      ensures Valid()
      ensures categories == [] && products == None && selectedCategory == ""
      ensures selectedProducts == [] && selectedXAxisValues == [] && selectedYAxisValues == []
      ensures !loader
    {
      categories := [];
      products := None;
      selectedCategory := "";
      selectedProducts := [];
      selectedXAxisValues := [];
      selectedYAxisValues := [];
      loader := false;
    }

    /** Resets the filters and the report; the category list and the spinner are kept. */
    method ClearFilters()
      modifies this
      ensures Valid()
      ensures products == None && selectedCategory == ""
      ensures selectedProducts == [] && selectedXAxisValues == [] && selectedYAxisValues == []
      ensures categories == old(categories) && loader == old(loader)
      ensures !RunReportEnabled()
      ensures CurrentChart().titleText == "" && !CurrentChart().yAxisVisible
      ensures CurrentChart().xCategories == categories
      ensures CurrentChart().seriesData == Chart.PlaceholderSeries
    {
      products := None;
      selectedCategory := "";
      selectedProducts := [];
      selectedXAxisValues := [];
      selectedYAxisValues := [];
    }

    /** Choosing a category clears everything else, then records the choice. */
    method HandleCategoryChange(value: string)
      modifies this
      ensures Valid()
      ensures selectedCategory == value
      ensures products == None
      ensures selectedProducts == [] && selectedXAxisValues == [] && selectedYAxisValues == []
      ensures categories == old(categories) && loader == old(loader)
      ensures !RunReportEnabled()
    {
      ClearFilters();
      selectedCategory := value;
    }

    /** The product picker replaces the selection wholesale and touches nothing else. */
    method HandleProductChange(values: seq<string>)
      requires Valid()
      modifies this
      ensures Valid()
      ensures selectedProducts == values
      ensures categories == old(categories) && products == old(products)
      ensures selectedCategory == old(selectedCategory)
      ensures selectedXAxisValues == old(selectedXAxisValues) && selectedYAxisValues == old(selectedYAxisValues)
      ensures loader == old(loader)
    {
      selectedProducts := values;
    }

    /** The category list arriving on start-up; `None` is a failed fetch, which is only
        logged and leaves the state as it was. */
    method FetchCategories(response: Option<seq<string>>)
      requires Valid()
      modifies this
      ensures Valid()
      ensures categories == if response.Some? then response.value else old(categories)
      ensures products == old(products) && selectedCategory == old(selectedCategory)
      ensures selectedProducts == old(selectedProducts)
      ensures selectedXAxisValues == old(selectedXAxisValues) && selectedYAxisValues == old(selectedYAxisValues)
      ensures loader == old(loader)
    {
      if response.Some? {
        categories := response.value;
      }
    }

    /** The product list for the selected category arriving; nothing is fetched while no
        category is selected, and a failed fetch (`None`) only logs. */
    method FetchProducts(response: Option<ProductResponse>)
      requires Valid()
      modifies this
      ensures Valid()
      ensures products == if old(selectedCategory) != "" && response.Some? then response else old(products)
      ensures categories == old(categories) && selectedCategory == old(selectedCategory)
      ensures selectedProducts == old(selectedProducts)
      ensures selectedXAxisValues == old(selectedXAxisValues) && selectedYAxisValues == old(selectedYAxisValues)
      ensures loader == old(loader)
    {
      if selectedCategory == "" {
        return;
      }
      if response.Some? {
        products := response;
      }
    }

    /** Pressing Run Report: the spinner goes on and the derivation is scheduled. */
    method BeginReport()
      requires Valid()
      modifies this
      ensures Valid() && loader
      ensures categories == old(categories) && products == old(products)
      ensures selectedCategory == old(selectedCategory) && selectedProducts == old(selectedProducts)
      ensures selectedXAxisValues == old(selectedXAxisValues) && selectedYAxisValues == old(selectedYAxisValues)
    {
      loader := true;
    }

    /** The scheduled derivation: both axes are recomputed from the loaded list and the
        selection, and the spinner goes off. */
    method FinishReport()
      requires Valid()
      modifies this
      ensures Valid() && !loader
      ensures selectedXAxisValues == Report.XAxisValues(products, selectedProducts)
      ensures selectedYAxisValues == Report.YAxisValues(products, selectedProducts)
      ensures categories == old(categories) && products == old(products)
      ensures selectedCategory == old(selectedCategory) && selectedProducts == old(selectedProducts)
    {
      var titles := Report.AllTitles(products);
      var filteredTitles := Report.SelectedTitles(titles, selectedProducts);
      selectedXAxisValues := if |filteredTitles| > 0 then filteredTitles else titles;
      var filteredPrices := Report.FilteredPrices(products, selectedProducts);
      selectedYAxisValues := if |filteredPrices| > 0 then filteredPrices else Report.AllPrices(products);
      loader := false;
    }

    /** A whole report run. With no list loaded both axes end up empty; when the button is
        enabled both are non-empty and the chart shows them in place of its fallbacks. */
    method RunReport()
      requires Valid()
      modifies this
      ensures Valid() && !loader
      ensures selectedXAxisValues == Report.XAxisValues(products, selectedProducts)
      ensures selectedYAxisValues == Report.YAxisValues(products, selectedProducts)
      ensures categories == old(categories) && products == old(products)
      ensures selectedCategory == old(selectedCategory) && selectedProducts == old(selectedProducts)
      ensures products == None ==> selectedXAxisValues == [] && selectedYAxisValues == []
      ensures RunReportEnabled() ==>
                && selectedXAxisValues != [] && selectedYAxisValues != []
                && CurrentChart().yAxisVisible
                && CurrentChart().xCategories == selectedXAxisValues
                && CurrentChart().seriesData == selectedYAxisValues
    {
      BeginReport();
      FinishReport();
    }
  }
}
