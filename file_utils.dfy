// Text extraction from an uploaded file: the dispatch on the file-name
// extension and the page-by-page text assembly of a PDF.

module FileUtils {
  import opened Wrappers
  import opened Strings

  const UnsupportedMessage := "Unsupported file format. Please upload .txt, .md, or .pdf"
  const PdfFailureMessage := "Failed to read PDF file. It might be encrypted or corrupted."

  /** `name.split('.').pop()`: the longest suffix without a dot. */
  function LastPiece(name: string): (p: string)
    ensures |p| <= |name| && p == name[|name| - |p|..]
    ensures '.' !in p
    ensures |p| < |name| ==> name[|name| - |p| - 1] == '.'
  {
    if name == [] then []
    else if name[|name| - 1] == '.' then []
    else
      var p := LastPiece(name[..|name| - 1]);
      var q := p + [name[|name| - 1]];
      assert '.' !in q by {
        forall k | 0 <= k < |q| ensures q[k] != '.' {
          if k < |p| { assert q[k] == p[k] && p[k] in p; }
        }
      }
      q
  }

  /** The lower-cased text after the last dot, or the whole lower-cased name when there is no dot. */
  function Extension(name: string): string {
    Lower(LastPiece(name))
  }

  /** The piece after the last dot is exactly what follows that dot. */
  lemma {:induction false} LastPieceOfDotted(base: string, ext: string)
    requires '.' !in ext
    ensures LastPiece(base + "." + ext) == ext
    decreases |ext|
  {
    var name := base + "." + ext;
    if ext == [] {
      assert name[|name| - 1] == '.';
    } else {
      var last := ext[|ext| - 1];
      assert last in ext;
      assert name[..|name| - 1] == base + "." + ext[..|ext| - 1];
      var e := ext[..|ext| - 1];
      assert '.' !in e by {
        forall k | 0 <= k < |e| ensures e[k] != '.' {
          assert e[k] == ext[k] && ext[k] in ext;
        }
      }
      LastPieceOfDotted(base, ext[..|ext| - 1]);
      assert ext == ext[..|ext| - 1] + [last];
    }
  }

  /** A name without a dot is its own extension piece. */
  lemma {:induction false} LastPieceOfUndotted(name: string)
    requires '.' !in name
    ensures LastPiece(name) == name
    decreases |name|
  {
    if name != [] {
      var init, last := name[..|name| - 1], name[|name| - 1];
      assert last in name;
      assert '.' !in init by {
        forall k | 0 <= k < |init| ensures init[k] != '.' {
          assert init[k] == name[k] && name[k] in name;
        }
      }
      LastPieceOfUndotted(init);
      assert LastPiece(name) == LastPiece(init) + [last];
      assert init + [last] == name;
    }
  }

  /** One PDF page as pdf.js yields it: its text items, or a failure to load or read it. */
  datatype Page = Page(items: seq<string>) | PageFails

  /** The document as pdf.js opens it, or a failure to load the library or parse the document. */
  datatype Pdf = Unloadable | Document(pages: seq<Page>)

  /** An uploaded file: its name, the text `file.text()` gives, and how pdf.js reads its bytes. */
  datatype File = File(name: string, text: string, pdf: Pdf)

  predicate AllPagesRead(pages: seq<Page>) {
    forall i :: 0 <= i < |pages| ==> pages[i].Page?
  }

  /** Each page's items joined with a space and followed by a blank line, in page order. */
  function PagesText(pages: seq<Page>): string
    requires AllPagesRead(pages)
  {
    if pages == [] then ""
    else PagesText(pages[..|pages| - 1]) + Join(pages[|pages| - 1].items, " ") + "\n\n"
  }

  /** What `extractPdfText` resolves to. */
  function PdfText(pdf: Pdf): Result<string, Error> {
    if pdf.Unloadable? || !AllPagesRead(pdf.pages) then Err(Raise(PdfFailureMessage))
    else Ok(Trim(PagesText(pdf.pages)))
  }

  /** `extractPdfText`: the loop over the pages appending to the full text. */
  method ExtractPdfText(pdf: Pdf) returns (r: Result<string, Error>)
    ensures r == PdfText(pdf)
  {
    if pdf.Unloadable? {
      return Err(Raise(PdfFailureMessage));
    }
    var pages := pdf.pages;
    var fullText := "";
    var i := 0;
    while i < |pages|
      invariant 0 <= i <= |pages| && AllPagesRead(pages[..i])
      invariant fullText == PagesText(pages[..i])
    {
      if pages[i].PageFails? {
        return Err(Raise(PdfFailureMessage));
      }
      assert pages[..i + 1][..i] == pages[..i];
      fullText := fullText + Join(pages[i].items, " ") + "\n\n";
      i := i + 1;
    }
    assert pages[..i] == pages;
    r := Ok(Trim(fullText));
  }

  /** The pages' texts come in page order: the text of two runs of pages is the one run's text after the other's. */
  lemma {:induction false} PagesTextConcat(a: seq<Page>, b: seq<Page>)
    requires AllPagesRead(a) && AllPagesRead(b)
    ensures AllPagesRead(a + b)
    ensures PagesText(a + b) == PagesText(a) + PagesText(b)
    decreases |b|
  {
    var c := a + b;
    assert AllPagesRead(c) by {
      forall i | 0 <= i < |c| ensures c[i].Page? {
        if i < |a| { assert c[i] == a[i]; } else { assert c[i] == b[i - |a|]; }
      }
    }
    if b == [] {
      assert c == a;
    } else {
      var b' := b[..|b| - 1];
      var tail := Join(b[|b| - 1].items, " ") + "\n\n";
      assert c[..|c| - 1] == a + b';
      assert c[|c| - 1] == b[|b| - 1];
      PagesTextConcat(a, b');
      assert PagesText(c) == PagesText(a + b') + tail;
      assert PagesText(b) == PagesText(b') + tail;
    }
  }

  /** Any failure, of the library, the document or one page, gives the one failure message. */
  lemma PdfFailureIsUniform(pdf: Pdf, i: nat)
    requires pdf.Unloadable? || (i < |pdf.pages| && pdf.pages[i].PageFails?)
    ensures PdfText(pdf) == Err(Raise(PdfFailureMessage))
  {
  }

  /** The text never starts or ends with white space; a one-page document gives the trimmed page text. */
  lemma PdfTextShape(pages: seq<Page>)
    requires AllPagesRead(pages)
    ensures PdfText(Document(pages)).Ok? && IsTrimmed(PdfText(Document(pages)).value)
    ensures |pages| == 1 ==> PdfText(Document(pages)) == Ok(Trim(Join(pages[0].items, " ")))
  {
    TrimSlice(PagesText(pages));
    if |pages| == 1 {
      assert pages[..0] == [];
      var j := Join(pages[0].items, " ");
      assert PagesText(pages) == "" + j + "\n\n";
      assert AllSpace("\n\n");
      TrimIgnoresPadding("", j, "\n\n");
    }
  }

  /** `extractTextFromFile` */
  function ExtractTextFromFile(file: File): (r: Result<string, Error>)
    ensures Extension(file.name) == "pdf" ==> r == PdfText(file.pdf)
    ensures Extension(file.name) in {"txt", "md"} ==> r == Ok(file.text)
    ensures Extension(file.name) !in {"pdf", "txt", "md"} ==> r == Err(Raise(UnsupportedMessage))
  {
    var extension := Extension(file.name);
    if extension == "pdf" then PdfText(file.pdf)
    else if extension == "txt" || extension == "md" then Ok(file.text)
    else Err(Raise(UnsupportedMessage))
  }

  /** The dispatch looks only at what follows the last dot, in any letter case. */
  lemma DispatchByLastDot(base: string, ext: string, text: string, pdf: Pdf)
    requires '.' !in ext
    ensures var r := ExtractTextFromFile(File(base + "." + ext, text, pdf));
            && (Lower(ext) == "pdf" ==> r == PdfText(pdf))
            && (Lower(ext) in {"txt", "md"} ==> r == Ok(text))
            && (Lower(ext) !in {"pdf", "txt", "md"} ==> r == Err(Raise(UnsupportedMessage)))
  {
    LastPieceOfDotted(base, ext);
  }

  /** A name without a dot is judged by the whole name, so "pdf" alone counts as a PDF. */
  lemma UndottedNameIsItsExtension(name: string)
    requires '.' !in name
    ensures Extension(name) == Lower(name)
  {
    LastPieceOfUndotted(name);
  }
}
