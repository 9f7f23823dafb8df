/** The export page: the converted report in two formats, a profile the
    user picks, and downloads of either format or of both in one text
    file. Fetching the report and handing a file to the browser happen
    outside this model; each download is recorded as a name and a content. */
module ConversionEngine {
  import opened Base
  import opened Text

  /** The two export formats. */
  datatype Format = TaskPaper | Markdown

  /** One section of the response: missing (`undefined`), `null`, or a
      string. */
  datatype Section = Missing | Null | Text(text: string)

  /** The converted report. */
  datatype Report = Report(taskpaper: Section, markdown: Section)

  /** A file handed to the browser. */
  datatype Download = Download(fileName: string, content: string)

  const TaskPaperHeader := "--- TaskPaper ---\n"
  const MarkdownHeader := "--- Markdown ---\n"

  /** `data[type]`: the content of one format. */
  function ContentOf(data: Report, format: Format): Section {
    match format
    case TaskPaper => data.taskpaper
    case Markdown => data.markdown
  }

  /** The file extension of a format. */
  function Extension(format: Format): (ext: string)
    ensures |ext| >= 3 && ext[0] == '.'
  {
    match format
    case TaskPaper => ".taskpaper"
    case Markdown => ".md"
  }

  /** The name of a one-format download: the selected profile, or "report"
      when none (or an empty one) is selected, then the format's extension. */
  function ExportFileName(profile: Option<string>, format: Format): (name: string)
    ensures Truthy(profile) ==> name == profile.value + Extension(format)
    ensures !Truthy(profile) ==> name == "report" + Extension(format)
  {
    OrElse(profile, "report") + Extension(format)
  }

  /** The two formats never get the same file name for the same profile,
      and the name shows which format it holds. */
  lemma ExportNamesDiffer(profile: Option<string>)
    ensures ExportFileName(profile, TaskPaper) != ExportFileName(profile, Markdown)
  {
    var stem := OrElse(profile, "report");
    var a := ExportFileName(profile, TaskPaper);
    var b := ExportFileName(profile, Markdown);
    assert a[|stem|..] == ".taskpaper";
    assert b[|stem|..] == ".md";
  }

  /** The name of the all-formats download: the selected profile, or
      "complete", then "-report.txt". */
  function CombinedFileName(profile: Option<string>): (name: string)
    ensures Truthy(profile) ==> name == profile.value + "-report.txt"
    ensures !Truthy(profile) ==> name == "complete-report.txt"
  {
    OrElse(profile, "complete") + "-report.txt"
  }

  /** The all-formats file never takes the name of a one-format file,
      whatever profiles the two were made for. */
  lemma CombinedNameDistinct(p: Option<string>, q: Option<string>, format: Format)
    ensures CombinedFileName(p) != ExportFileName(q, format)
  {
    var a := CombinedFileName(p);
    var b := ExportFileName(q, format);
    assert a[|a| - 1] == 't';
    assert b[|b| - 1] != 't';
  }

  /** A section that JavaScript treats as true: a non-empty string. */
  predicate Present(v: Section) {
    v.Text? && v.text != ""
  }

  /** A value interpolated into a template string: a missing section shows
      as the text "undefined", a `null` one as "null". */
  function Interpolated(v: Section): string {
    match v
    case Missing => "undefined"
    case Null => "null"
    case Text(t) => t
  }

  /** The content of the all-formats download: its TaskPaper section, a
      blank line, then the Markdown section. */
  function CombinedReport(data: Report): (r: string)
    ensures StartsWith(r, TaskPaperHeader)
    ensures var sep := "\n\n" + MarkdownHeader;
            var tp := Interpolated(data.taskpaper);
            var md := Interpolated(data.markdown);
            && |r| == |TaskPaperHeader| + |tp| + |sep| + |md|
            && r[|TaskPaperHeader|..|TaskPaperHeader| + |tp|] == tp
            && r[|TaskPaperHeader| + |tp|..|r| - |md|] == sep
            && r[|r| - |md|..] == md
  {
    TaskPaperHeader + Interpolated(data.taskpaper) + "\n\n" + MarkdownHeader + Interpolated(data.markdown)
  }

  /** Whatever a one-format download of the same report would hold also
      appears in the all-formats download. */
  lemma CombinedHoldsExports(data: Report, format: Format)
    requires Present(ContentOf(data, format))
    ensures Includes(CombinedReport(data), ContentOf(data, format).text)
  {
    var r := CombinedReport(data);
    var c := ContentOf(data, format).text;
    var md := Interpolated(data.markdown);
    match format
    case TaskPaper =>
      assert OccursAt(r, c, |TaskPaperHeader|);
      IncludesAt(r, c);
    case Markdown =>
      assert OccursAt(r, c, |r| - |md|);
      IncludesAt(r, c);
  }

  /** A format the report lacks shows as the text "undefined" in the
      all-formats download, and a `null` one as "null", while a one-format
      download of either does nothing. */
  lemma MissingSectionShowsUndefined(data: Report)
    requires data.taskpaper.Missing? || data.taskpaper.Null?
    ensures !Present(ContentOf(data, TaskPaper))
    ensures data.taskpaper.Missing? ==> CombinedReport(data)[|TaskPaperHeader|..|TaskPaperHeader| + 9] == "undefined"
    ensures data.taskpaper.Null? ==> CombinedReport(data)[|TaskPaperHeader|..|TaskPaperHeader| + 4] == "null"
  {
  }

  class ConversionEngineComponent {
    var loading: bool
    var data: Report
    var selectedProfile: Option<string>
    var showExportOptions: bool
    /** The files handed to the browser so far, oldest first. */
    var downloads: seq<Download>

    constructor ()
      ensures loading && data == Report(Missing, Missing) && selectedProfile == None && !showExportOptions
      ensures downloads == []
    {
      loading := true;
      data := Report(Missing, Missing);
      selectedProfile := None;
      showExportOptions := false;
      downloads := [];
    }

    /** The report arriving (the subscription of `ngOnInit`). */
    method ReportLoaded(res: Report)
      modifies this`data, this`loading
      ensures data == res && !loading
    {
      data := res;
      loading := false;
    }

    /** `onProfileClick`: selects the profile and opens the export options. */
    method OnProfileClick(profileName: string)
      modifies this`selectedProfile, this`showExportOptions
      ensures selectedProfile == Some(profileName) && showExportOptions
    {
      selectedProfile := Some(profileName);
      showExportOptions := true;
    }

    /** `closeExportOptions`: hides the options and forgets the profile. */
    method CloseExportOptions()
      modifies this`selectedProfile, this`showExportOptions
      ensures selectedProfile == None && !showExportOptions
    {
      showExportOptions := false;
      selectedProfile := None;
    }

    /** `downloadAs`: without content for the format nothing happens;
        otherwise that content is downloaded under the profile's name, and
        the options are closed afterwards. */
    method DownloadAs(format: Format)
      modifies this`selectedProfile, this`showExportOptions, this`downloads
      ensures !Present(ContentOf(data, format)) ==>
                selectedProfile == old(selectedProfile) && showExportOptions == old(showExportOptions)
                && downloads == old(downloads)
      ensures Present(ContentOf(data, format)) ==>
                downloads == old(downloads) + [Download(ExportFileName(old(selectedProfile), format), ContentOf(data, format).text)]
                && selectedProfile == None && !showExportOptions
    {
      var content := ContentOf(data, format);
      if !Present(content) {
        return;
      }
      var fileName := ExportFileName(selectedProfile, format);
      downloads := downloads + [Download(fileName, content.text)];
      CloseExportOptions();
    }

    /** `downloadAll`: both sections in one text file, named after the
        profile or "complete"; always downloads, then closes the options. */
    method DownloadAll()
      modifies this`selectedProfile, this`showExportOptions, this`downloads
      ensures downloads == old(downloads) + [Download(CombinedFileName(old(selectedProfile)), CombinedReport(data))]
      ensures selectedProfile == None && !showExportOptions
    {
      var combined := CombinedReport(data);
      downloads := downloads + [Download(CombinedFileName(selectedProfile), combined)];
      CloseExportOptions();
    }
  }
}
