/** The upload helpers: the extension allow-list and the saving of an uploaded document.

    `secure_filename` (Werkzeug) is an oracle from the uploaded name to the name the file is saved
    under; creating the directory and writing the file are I/O and are not modelled. */
module FileUtils {
  import opened Wrappers
  import opened TextUtil

  const AllowedExtensions: set<string> := {"txt", "pdf", "doc", "docx", "md"}

  /** `filename.rsplit('.', 1)[1]` for a name that holds a dot: the text after its last dot. */
  function Extension(filename: string): string
    requires '.' in filename
  {
    filename[RFind(filename, '.') + 1..]
  }

  /** `allowed_file`. */
  predicate AllowedFile(filename: string) {
    '.' in filename && Lower(Extension(filename)) in AllowedExtensions
  }

  /** A name is allowed exactly when it splits into a stem, a dot and a dot-free extension whose
      lower-case form is on the list: only the last extension counts. */
  lemma AllowedFileIff(filename: string)
    ensures AllowedFile(filename) <==>
      exists k :: 0 <= k < |filename| && filename[k] == '.' && '.' !in filename[k + 1..]
        && Lower(filename[k + 1..]) in AllowedExtensions
  {
    if '.' in filename {
      var k := RFind(filename, '.');
      assert k >= 0 by {
        var j :| 0 <= j < |filename| && filename[j] == '.';
      }
      var e := filename[k + 1..];
      assert forall j :: 0 <= j < |e| ==> e[j] == filename[k + 1 + j];
    }
  }

  /** The extension starts right after a dot that no other dot follows. */
  lemma ExtensionAfter(filename: string, k: nat)
    requires k < |filename| && filename[k] == '.'
    requires forall j :: k < j < |filename| ==> filename[j] != '.'
    ensures Extension(filename) == filename[k + 1..]
  {
    assert RFind(filename, '.') == k;
  }

  lemma LowerCharDot(c: char)
    ensures LowerChar(c) == '.' <==> c == '.'
  {
  }

  /** Lower-casing a name moves no dot. */
  lemma {:induction false} LowerKeepsDots(s: string)
    ensures forall j :: 0 <= j < |s| ==> (Lower(s)[j] == '.' <==> s[j] == '.')
  {
    forall j | 0 <= j < |s| ensures Lower(s)[j] == '.' <==> s[j] == '.' {
      LowerCharDot(s[j]);
    }
  }

  lemma {:induction false} LowerTwice(s: string)
    ensures Lower(Lower(s)) == Lower(s)
  {
    assert forall j :: 0 <= j < |s| ==> Lower(Lower(s))[j] == LowerChar(LowerChar(s[j])) == LowerChar(s[j]);
  }

  /** The check ignores case: a name and its lower-case form are allowed alike. */
  lemma {:induction false} AllowedFileIgnoresCase(filename: string)
    ensures AllowedFile(Lower(filename)) == AllowedFile(filename)
  {
    var l := Lower(filename);
    LowerKeepsDots(filename);
    assert ('.' in l) == ('.' in filename) by {
      if '.' in filename {
        var j :| 0 <= j < |filename| && filename[j] == '.';
        assert l[j] == '.';
      }
      if '.' in l {
        var j :| 0 <= j < |l| && l[j] == '.';
        assert filename[j] == '.';
      }
    }
    if '.' in filename {
      var k := RFind(filename, '.');
      assert RFind(l, '.') == k;
      assert Extension(l) == Lower(Extension(filename));
      LowerTwice(Extension(filename));
    }
  }

  /** Only the last extension counts: "a.pdf.exe" is refused. */
  lemma RejectsInnerExtension()
    ensures !AllowedFile("a.pdf.exe")
  {
    ExtensionAfter("a.pdf.exe", 5);
    assert "a.pdf.exe"[6..] == "exe";
    assert Lower("exe") == "exe";
  }

  /** The extension's case does not matter: "Report.PDF" is allowed. */
  lemma AcceptsUpperCase()
    ensures AllowedFile("Report.PDF")
  {
    ExtensionAfter("Report.PDF", 6);
    assert "Report.PDF"[7..] == "PDF";
    assert Lower("PDF") == "pdf";
  }

  /** A name without a dot is refused, even one that is an allowed extension. */
  lemma RejectsNoDot()
    ensures !AllowedFile("pdf")
  {
  }

  /** An uploaded file, by the name the client sent. */
  datatype Upload = Upload(filename: string)

  datatype FileType = Pdf | Text

  datatype SaveError = NoFileProvided

  /** `os.path.join(directory, name)` for POSIX paths. */
  function PathJoin(directory: string, name: string): (r: string)
    ensures EndsWith(r, name)
  {
    var r := if StartsWith(name, "/") then name
             else if directory == [] || EndsWith(directory, "/") then directory + name
             else directory + "/" + name;
    assert r[|r| - |name|..] == name;
    r
  }

  /** `save_uploaded_file`: refused without a file or a name; otherwise the path the secured name
      is saved under in `uploadDir`, and the type: "pdf" exactly when the secured name ends with
      ".pdf" (in lower case), "text" otherwise. */
  function SaveUploadedFile(file: Option<Upload>, uploadDir: string, secure: string -> string)
    : (r: Result<(string, FileType), SaveError>)
    ensures r.Err? <==> file.None? || file.value.filename == ""
    ensures r.Ok? ==>
      var name := secure(file.value.filename);
      && r.value.0 == PathJoin(uploadDir, name)
      && EndsWith(r.value.0, name)
      && (r.value.1 == Pdf <==> EndsWith(name, ".pdf"))
  {
    if file.None? || file.value.filename == "" then Err(NoFileProvided)
    else
      var name := secure(file.value.filename);
      Ok((PathJoin(uploadDir, name), if EndsWith(name, ".pdf") then Pdf else Text))
  }

  /** The type test, unlike `allowed_file`, minds case: an upload named "Report.PDF" passes the
      allow-list and is saved as text, when the secured name keeps the case. */
  lemma UpperCasePdfIsText(uploadDir: string, secure: string -> string)
    requires secure("Report.PDF") == "Report.PDF"
    ensures AllowedFile("Report.PDF")
    ensures var r := SaveUploadedFile(Some(Upload("Report.PDF")), uploadDir, secure);
      r.Ok? && r.value.1 == Text
  {
    AcceptsUpperCase();
    assert "Report.PDF"[6..] != ".pdf";
  }
}
