/**
 * The entity-extraction page: the session keys that the search button, the
 * results form and the widgets write, and the blocks that read them later in
 * the same run (entity extraction, CSV download, the sidebar warning).
 */
module EntitySearch {
  import opened Wrappers

  /** One row of a result table: column name to cell text. */
  type Row = map<string, string>

  type Table = seq<Row>

  /** The sidebar choice under which entity extraction runs. */
  const DataForSeo: string := "DataForSeo"

  /** What the grid component keeps under "grid1"; only whether it holds "selectedRows" matters. */
  datatype GridState = GridState(selectedRows: Option<Table>)

  /** What the extraction block does. */
  datatype ExtractOutcome =
    | NotRequested                 // another API, or the form was not submitted
    | AskForRows                   // "Please select some rows"
    | Entities(found: Table)       // get_entities was called on the selected rows
    | ExtractRaised(key: string)   // a session key it reads is missing

  /** What the download block does. */
  datatype DownloadOutcome =
    | NoDownload
    | Csv(table: Table)            // a download button for this table
    | DownloadRaised(key: string)  // a session key it reads is missing

  /** What one run of the page shows. */
  datatype View = View(
    searchWarning: bool,
    formShown: bool,
    extraction: ExtractOutcome,
    download: DownloadOutcome,
    sidebarWarning: bool)

  /** The session of one user of the entity-extraction page. */
  class SearchPage {
    /** get_live_search_results(keywords, language, location) */
    const retrieve: (string, string, string) -> Table
    /** get_entities(rows, language, location) */
    const extract: (Table, string, string) -> Table

    var df: Option<Table>
    var keywords: Option<string>
    var location: Option<string>
    var language: Option<string>
    var extractEntities: Option<bool>
    /** "FormSubmitter:qf-Extract Entities", written by the form's submit button */
    var extractSubmitted: Option<bool>
    /** "grid1", written by the grid component */
    var grid: Option<GridState>

    /**
     * The search fields are stored together and never cleared, a stored keyword
     * is never empty, and a stored table is always the retrieval result for the
     * stored search fields. The last part holds because retrieval cannot fail
     * in this model.
     */
    ghost predicate Valid()
      reads this
    {
      && (keywords.Some? <==> location.Some?)
      && (keywords.Some? <==> language.Some?)
      && (keywords.Some? ==> keywords.value != "" && extractEntities.Some?)
      && (df.Some? ==> keywords.Some? && df.value == retrieve(keywords.value, language.value, location.value))
    }

    /** A new session holds none of the keys. */
    constructor (retrieve: (string, string, string) -> Table, extract: (Table, string, string) -> Table)
      ensures Valid()
      ensures this.retrieve == retrieve && this.extract == extract
      ensures df == None && keywords == None && location == None && language == None
      ensures extractEntities == None && extractSubmitted == None && grid == None
    {
      this.retrieve := retrieve;
      this.extract := extract;
      df, keywords, location, language := None, None, None, None;
      extractEntities, extractSubmitted, grid := None, None, None;
    }

    /**
     * Lines 85-96, the Search button. An empty keyword warns and drops the stored
     * table; otherwise the search fields are stored and the table is fetched
     * for the stored values.
     */
    method SearchButton(clicked: bool, input: string, loc: string, lang: string) returns (warning: bool)
      requires Valid()
      modifies this`df, this`keywords, this`location, this`language, this`extractEntities
      ensures Valid()
      ensures warning <==> clicked && input == ""
      ensures !clicked || (input == "" && old(df).None?) ==> unchanged(this)
      ensures clicked && input == "" && old(df).Some? ==>
                && df == None && extractEntities == Some(false)
                && keywords == old(keywords) && location == old(location) && language == old(language)
      ensures clicked && input != "" ==>
                && keywords == Some(input) && location == Some(loc) && language == Some(lang)
                && extractEntities == Some(false)
                && df == Some(retrieve(input, lang, loc))
    {
      warning := false;
      if clicked {
        if input == "" {
          warning := true;
          if df.Some? {
            df := None;
            extractEntities := Some(false);
          }
        } else {
          keywords := Some(input);
          location := Some(loc);
          language := Some(lang);
          extractEntities := Some(false);
          df := Some(retrieve(keywords.value, language.value, location.value));
        }
      }
    }

    /**
     * Lines 97-118: the results form is shown exactly when a table is stored,
     * and showing it sets extract_entities whether or not it was submitted.
     */
    method RenderResults() returns (shown: bool)
      requires Valid()
      modifies this`extractEntities
      ensures Valid()
      ensures shown <==> df.Some?
      ensures shown ==> extractEntities == Some(true)
      ensures !shown ==> extractEntities == old(extractEntities)
    {
      shown := df.Some?;
      if shown {
        extractEntities := Some(true);
      }
    }

    /**
     * Lines 134-141: entities are fetched only under the DataForSeo API, after a
     * submission of the form, and when the grid reports selected rows.
     */
    function Extraction(api: string): (o: ExtractOutcome)
      reads this
      ensures o == NotRequested <==> api != DataForSeo || extractSubmitted != Some(true)
      ensures o == AskForRows <==>
                api == DataForSeo && extractSubmitted == Some(true)
                && grid.Some? && grid.value.selectedRows.None?
      ensures o.Entities? <==>
                api == DataForSeo && extractSubmitted == Some(true)
                && grid.Some? && grid.value.selectedRows.Some?
                && language.Some? && location.Some?
      ensures o.Entities? ==> o.found == extract(grid.value.selectedRows.value, language.value, location.value)
      ensures Valid() && keywords.Some? && o.ExtractRaised? ==> o.key == "grid1"
    {
      if api != DataForSeo || extractSubmitted != Some(true) then NotRequested
      else if grid.None? then ExtractRaised("grid1")
      else if grid.value.selectedRows.None? then AskForRows
      else if language.None? then ExtractRaised("language")
      else if location.None? then ExtractRaised("location")
      else Entities(extract(grid.value.selectedRows.value, language.value, location.value))
    }

    /** Lines 145-146 as written: the block is gated on "grid1" but reads "df". */
    function DownloadAsWritten(): (o: DownloadOutcome)
      reads this
      ensures o == NoDownload <==> grid.None?
      ensures o.DownloadRaised? <==> grid.Some? && df.None?
      ensures o.Csv? ==> df == Some(o.table)
    {
      if grid.None? then NoDownload
      else if df.None? then DownloadRaised("df")
      else Csv(df.value)
    }

    /**
     * The download block with its gate corrected: a CSV is offered while the grid
     * is present and a table is stored, and the block never fails.
     */
    function Download(): (o: DownloadOutcome)
      reads this
      ensures !o.DownloadRaised?
      ensures o.Csv? <==> grid.Some? && df.Some?
      ensures o.Csv? ==> df == Some(o.table)
      ensures Valid() && o.Csv? ==> o.table == retrieve(keywords.value, language.value, location.value)
      ensures DownloadAsWritten().Csv? ==> o == DownloadAsWritten()
    {
      if grid.Some? && df.Some? then Csv(df.value) else NoDownload
    }

    /** Lines 160-161: the sidebar asks for a search when nothing was ever searched. */
    function SidebarWarning(sideClicked: bool): (w: bool)
      reads this
      ensures w <==> sideClicked && grid.None? && keywords.None?
      ensures Valid() && df.Some? ==> !w
    {
      sideClicked && grid.None? && keywords.None?
    }

    /**
     * One run of the page script (lines 85-161), with the corrected download
     * block in place of lines 145-146. A missing key in the extraction block
     * stops the run there.
     */
    method Rerun(searchClicked: bool, input: string, loc: string, lang: string, api: string, sideClicked: bool)
      returns (v: View)
      requires Valid()
      modifies this`df, this`keywords, this`location, this`language, this`extractEntities
      ensures Valid()
      ensures v.searchWarning <==> searchClicked && input == ""
      ensures v.formShown <==> df.Some?
      ensures df.Some? ==> extractEntities == Some(true)
      ensures searchClicked && input != "" ==>
                && keywords == Some(input) && location == Some(loc) && language == Some(lang)
                && df == Some(retrieve(input, lang, loc))
      ensures searchClicked && input == "" ==>
                && df == None
                && keywords == old(keywords) && location == old(location) && language == old(language)
      ensures df.None? ==>
                extractEntities == (if searchClicked && input == "" && old(df).Some? then Some(false) else old(extractEntities))
      ensures !searchClicked ==>
                df == old(df) && keywords == old(keywords) && location == old(location) && language == old(language)
      ensures v.extraction == Extraction(api)
      ensures v.extraction.ExtractRaised? ==> v.download == NoDownload && !v.sidebarWarning
      ensures !v.extraction.ExtractRaised? ==> v.download == Download() && v.sidebarWarning == SidebarWarning(sideClicked)
    {
      var warning := SearchButton(searchClicked, input, loc, lang);
      var shown := RenderResults();
      var extraction := Extraction(api);
      if extraction.ExtractRaised? {
        v := View(warning, shown, extraction, NoDownload, false);
      } else {
        v := View(warning, shown, extraction, Download(), SidebarWarning(sideClicked));
      }
    }
  }

  /**
   * The as-written download gate fails after results were shown and a search
   * with an empty keyword follows: the table is dropped while the grid's state
   * from the previous run is still in the session.
   */
  method EmptySearchAfterResults(retrieve: (string, string, string) -> Table, extract: (Table, string, string) -> Table)
    returns (o: DownloadOutcome)
    ensures o == DownloadRaised("df")
  {
    var page := new SearchPage(retrieve, extract);
    var warning := page.SearchButton(true, "semantic seo", "Italy", "Italian");
    var shown := page.RenderResults();
    page.grid := Some(GridState(None));
    warning := page.SearchButton(true, "", "Italy", "Italian");
    o := page.DownloadAsWritten();
  }
}
