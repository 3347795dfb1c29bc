/**
 * The export file name (`handleExport`): "xwing-base-{size}-{timestamp}.png",
 * and a reader that takes such a name apart again.
 */
module Export {
  import opened Wrappers
  import opened Text

  /** What pressing the export button does. */
  datatype ExportOutcome =
    | Alert(message: string)      // a blocking message; nothing is saved
    | Download(fileName: string)  // the canvas is saved under this name

  const NoSizeMessage := "Please select a base size first"
  const FilePrefix := "xwing-base-"
  const FileSuffix := ".png"

  /** The name the exported image is saved under; `timestamp` is `Date.now()`. */
  function ExportFileName(size: string, timestamp: nat): string
  {
    FilePrefix + size + "-" + Decimal(timestamp) + FileSuffix
  }

  /** The last position of `c` in `s`, if any. */
  function LastIndex(s: string, c: char): (k: Option<nat>)
    ensures k.None? ==> forall j :: 0 <= j < |s| ==> s[j] != c
    ensures k.Some? ==> k.value < |s| && s[k.value] == c && forall j :: k.value < j < |s| ==> s[j] != c
  {
    if s == [] then None
    else if s[|s| - 1] == c then Some(|s| - 1)
    else
      var init := s[..|s| - 1];
      assert forall j :: 0 <= j < |init| ==> s[j] == init[j];
      LastIndex(init, c)
  }

  /**
   * Reads the size and the timestamp back from the part of a file name
   * between prefix and suffix: the timestamp is the digits after the last
   * hyphen, the size everything before it.
   */
  function ParseCore(core: string): Option<(string, nat)>
  {
    match LastIndex(core, '-')
    case None => None
    case Some(k) =>
      var digits := core[k + 1..];
      if digits != [] && forall i :: 0 <= i < |digits| ==> IsDigit(digits[i])
      then Some((core[..k], DecimalValue(digits)))
      else None
  }

  /** Reads the size and the timestamp back from an export file name. */
  function ParseExportFileName(name: string): Option<(string, nat)>
  {
    if |name| < |FilePrefix| + |FileSuffix| || name[..|FilePrefix|] != FilePrefix
       || name[|name| - |FileSuffix|..] != FileSuffix
    then None
    else ParseCore(name[|FilePrefix|..|name| - |FileSuffix|])
  }

  /** A hyphen with no hyphen after it is the last one. */
  lemma LastHyphenAt(core: string, p: nat)
    requires p < |core| && core[p] == '-'
    requires forall j :: p < j < |core| ==> core[j] != '-'
    ensures LastIndex(core, '-') == Some(p)
  {
  }

  /** "{size}-{digits of timestamp}" reads back as the size and the timestamp. */
  lemma CoreRoundTrip(size: string, timestamp: nat)
    ensures ParseCore(size + "-" + Decimal(timestamp)) == Some((size, timestamp))
  {
    var digits := Decimal(timestamp);
    var core := size + "-" + digits;
    assert core[|size|] == '-';
    forall j | |size| < j < |core| ensures core[j] != '-' {
      assert core[j] == digits[j - |size| - 1];
    }
    LastHyphenAt(core, |size|);
    assert core[..|size|] == size;
    assert core[|size| + 1..] == digits;
    DecimalRoundTrip(timestamp);
  }

  /**
   * The size and the timestamp can be read back from the file name, for
   * every size: the timestamp's digits hold no hyphen, so the last hyphen
   * is the one the name puts after the size.
   */
  lemma ExportFileNameRoundTrip(size: string, timestamp: nat)
    ensures ParseExportFileName(ExportFileName(size, timestamp)) == Some((size, timestamp))
  {
    var name := ExportFileName(size, timestamp);
    var core := size + "-" + Decimal(timestamp);
    assert name == FilePrefix + core + FileSuffix;
    assert name[..|FilePrefix|] == FilePrefix;
    assert name[|name| - |FileSuffix|..] == FileSuffix;
    assert name[|FilePrefix|..|name| - |FileSuffix|] == core;
    CoreRoundTrip(size, timestamp);
  }

  /** Two exports with the same name were of the same size at the same time. */
  lemma ExportFileNameInjective(size: string, t: nat, size': string, t': nat)
    requires ExportFileName(size, t) == ExportFileName(size', t')
    ensures size == size' && t == t'
  {
    ExportFileNameRoundTrip(size, t);
    ExportFileNameRoundTrip(size', t');
  }
}
