/**
  The editor project as the plugin sees it through `UnityCSProject`: the list of
  analyzer items it holds and how often it has been written back to disk. The
  XML parsing and serialisation behind it are not part of this model.
 */
module UnityCSProjects {

  class EditorProject {
    /** `AnalyzerItems`, in file order, each an analyzer path. */
    var analyzerItems: seq<string>
    /** How many times `WriteToFile` has been called on this project. */
    var writeCount: nat

    /** A project as loaded, with the analyzer items the file holds. */
    constructor (items: seq<string>)
      ensures analyzerItems == items && writeCount == 0
    {
      analyzerItems := items;
      writeCount := 0;
    }

    /** `AddAnalyzer(new AnalyzerItem(path))`: appends one item, nothing is de-duplicated. */
    method AddAnalyzer(path: string)
      modifies this
      ensures analyzerItems == old(analyzerItems) + [path]
      ensures writeCount == old(writeCount)
    {
      analyzerItems := analyzerItems + [path];
    }

    /** `WriteToFile()`: records one write of the current items. */
    method WriteToFile()
      modifies this
      ensures writeCount == old(writeCount) + 1
      ensures analyzerItems == old(analyzerItems)
    {
      writeCount := writeCount + 1;
    }
  }
}
