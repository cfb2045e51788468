/**
 * The file-name rule of the script's entry point: the name typed by the user is
 * stripped of surrounding whitespace, rejected when nothing is left, and given the
 * `.html` extension unless it already ends with it.
 */
module ReportName {
  import opened Results
  import opened PyStr

  /** The extension of the report file. */
  const Extension: string := ".html"

  /** Why a typed file name is refused: the `ValueError` raised for an empty name. */
  datatype InputError = EmptyFileName

  /**
   * The name the report is saved under, for the text `raw` the user typed.
   * Refused exactly when `raw` is empty or all whitespace; otherwise the result ends
   * with `.html` and begins with the stripped input.
   */
  function NormalizeFileName(raw: string): (r: Result<string, InputError>)
    ensures r.Failure? <==> AllSpace(raw)
    ensures r.Success? ==> EndsWith(r.value, Extension)
    ensures r.Success? ==> Strip(raw) != [] && |Strip(raw)| <= |r.value| && r.value[..|Strip(raw)|] == Strip(raw)
  {
    var name := Strip(raw);
    if name == [] then
      Failure(EmptyFileName)
    else if EndsWith(name, Extension) then
      Success(name)
    else
      Success(name + Extension)
  }

  /**
   * The extension is added only when missing: a stripped name already ending with
   * `.html` is kept as it is, any other gets `.html` appended.
   */
  lemma ExtensionAddedOnlyWhenMissing(raw: string)
    requires !AllSpace(raw)
    ensures EndsWith(Strip(raw), Extension) ==> NormalizeFileName(raw) == Success(Strip(raw))
    ensures !EndsWith(Strip(raw), Extension) ==> NormalizeFileName(raw) == Success(Strip(raw) + Extension)
  {
  }

  /** Normalising an accepted name again gives the same name back. */
  lemma NormalizeIdempotent(raw: string)
    requires NormalizeFileName(raw).Success?
    ensures NormalizeFileName(NormalizeFileName(raw).value) == NormalizeFileName(raw)
  {
    var name := Strip(raw);
    var out := NormalizeFileName(raw).value;
    assert out[|out| - 1] == 'l' by {
      assert out[|out| - |Extension|..] == Extension;
    }
    assert out[0] == name[0];
    StripFixed(out);
  }

  /** A bare name, a name already ending in `.html`, and a blank name. */
  lemma NormalizeExamples()
    ensures NormalizeFileName("report") == Success("report.html")
    ensures NormalizeFileName("report.html") == Success("report.html")
    ensures NormalizeFileName("  ") == Failure(EmptyFileName)
  {
    StripFixed("report");
    assert !EndsWith("report", Extension) by {
      assert "report"[1..][0] != Extension[0];
    }
    assert "report" + Extension == "report.html";
    StripFixed("report.html");
    assert "report.html"[6..] == Extension;
    assert AllSpace("  ");
  }
}
