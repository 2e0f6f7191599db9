/**
  The persisted commit marker ("head SHA file"): read its first line,
  overwrite it whole, and compare identifiers ignoring trailing whitespace.
 */
module Marker {
  import opened Text

  /** read_sha_from_file: the first line of the file, as readline() returns it. */
  function ReadSha(content: string): (sha: string)
    ensures sha <= Translate(content)
    ensures sha == "" <==> content == ""
  {
    ReadLine(content)
  }

  /** A line-break-free value in the file is read back whole. */
  lemma ReadShaOfLine(sha: string)
    requires '\n' !in sha && '\r' !in sha
    ensures ReadSha(sha) == sha
  {
    TranslateIdentity(sha);
    FirstLineWhole(sha);
  }

  /**
    write_sha_to_file: the file's whole new content, written without a
    trailing newline, so that a line-break-free identifier reads back whole.
   */
  function WriteSha(newSha: string): (content: string)
    ensures content == newSha
    ensures '\n' !in newSha && '\r' !in newSha ==> ReadSha(content) == newSha
  {
    if '\n' !in newSha && '\r' !in newSha then ReadShaOfLine(newSha); newSha else newSha
  }

  /** compare_sha: equal once trailing whitespace is stripped from both. */
  predicate CompareSha(sha1: string, sha2: string): (same: bool)
    ensures sha1 == sha2 ==> same
    ensures AllSpace(sha1) && AllSpace(sha2) ==> same
  {
    RStrip(sha1) == RStrip(sha2)
  }

  lemma CompareShaSymmetric(a: string, b: string)
    ensures CompareSha(a, b) <==> CompareSha(b, a)
  {
  }

  lemma CompareShaTransitive(a: string, b: string, c: string)
    requires CompareSha(a, b) && CompareSha(b, c)
    ensures CompareSha(a, c)
  {
  }

  /** Trailing whitespace on either side never changes the verdict. */
  lemma CompareShaIgnoresTrailingSpace(a: string, b: string, w: string)
    requires AllSpace(w)
    ensures CompareSha(a + w, b) <==> CompareSha(a, b)
  {
    RStripAppendSpaces(a, w);
  }

  /** A marker file "abcdef1\n" matches the head "abcdef1". */
  lemma CompareShaNewlineExample()
    ensures CompareSha("abcdef1", "abcdef1\n")
    ensures CompareSha("abcdef1\n", "abcdef1")
  {
    assert AllSpace("\n");
    CompareShaIgnoresTrailingSpace("abcdef1", "abcdef1", "\n");
    assert "abcdef1" + "\n" == "abcdef1\n";
  }

  /** Trailing whitespace is the only difference compare_sha forgives. */
  lemma CompareShaExact(a: string, b: string)
    requires a == [] || !IsSpace(a[|a| - 1])
    requires b == [] || !IsSpace(b[|b| - 1])
    ensures CompareSha(a, b) <==> a == b
  {
  }

  /** Writing an identifier without line breaks and reading it back gives it unchanged. */
  lemma WriteThenRead(sha: string)
    requires '\n' !in sha && '\r' !in sha
    ensures ReadSha(WriteSha(sha)) == sha
    ensures CompareSha(ReadSha(WriteSha(sha)), sha)
  {
  }

  /** Only the first line of a marker is read: the round trip needs the line-break-free identifier. */
  lemma ReadShaStopsAtNewline()
    ensures ReadSha(WriteSha("abc\ndef")) == "abc\n"
    ensures !CompareSha(ReadSha(WriteSha("abc\ndef")), "abc\ndef")
  {
    assert "abc\ndef"[0] == 'a';
    assert Translate("abc\ndef") == "abc\ndef" by {
      TranslateIdentity("abc\ndef");
    }
    assert FirstLine("abc\ndef") == "abc\n";
    assert RStrip("abc\n") == "abc" by {
      RStripUnique("abc\n", "abc");
    }
    assert RStrip("abc\ndef") == "abc\ndef" by {
      RStripUnique("abc\ndef", "abc\ndef");
    }
  }

  /** A marker holding only "\n" is not empty: readline() returns "\n". */
  lemma BlankLineMarkerIsNotEmpty()
    ensures ReadSha("\n") == "\n"
    ensures ReadSha("\r\n") == "\n"
  {
    assert Translate("\r\n") == "\n";
  }
}
