/** The plugin's settings as one run reads them. The pattern (`expr`) is not a
    field here: the run receives it already compiled, as an Extraction.Matcher. */
module Config {

  datatype Settings = Settings(
    summaryTitle: string,      // content of the generated summary block
    keepSummaryAbove: bool,    // summary goes before (true) or after (false) its anchor
    keepRefs: bool,            // append a link back to the source block
    refLabel: string,          // visible label of that link
    keepMeta: bool             // keep the matched text's delimiters
  )
}
