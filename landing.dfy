/** The file boundary of the landing screen: the name/MIME acceptance test and the
    bounded search for the `%PDF-` file header (section 7.5.2 of ISO 32000-1), which
    strips any bytes in front of the header before the file reaches the editor. */
module Landing {
  import opened Types

  /** The header signature `%PDF-` as bytes. */
  const Signature: seq<byte> := [0x25, 0x50, 0x44, 0x46, 0x2D]

  /** Only headers starting in the first 1024 bytes are looked for. */
  const ScanWindow: nat := 1024

  const PdfMime: string := "application/pdf"

  datatype Rejection = NotPdfType | NoHeader

  datatype Upload = Rejected(reason: Rejection) | Uploaded(file: PdfFile)

  function Min(a: int, b: int): int {
    if a < b then a else b
  }

  function LowerChar(c: char): char {
    if 'A' <= c <= 'Z' then (c as int + 32) as char else c
  }

  /** `toLowerCase`, on the ASCII letters. */
  function Lower(s: string): string {
    seq(|s|, i requires 0 <= i < |s| => LowerChar(s[i]))
  }

  predicate EndsWith(s: string, suffix: string) {
    |suffix| <= |s| && s[|s| - |suffix|..] == suffix
  }

  /** A file goes on to be read when its MIME type says PDF or its name ends in `.pdf`
      in any letter case: a case-insensitive comparison of the last four characters. */
  function IsPdfCandidate(mime: string, name: string): (b: bool)
    ensures b <==>
      mime == PdfMime ||
      (|name| >= 4 && name[|name| - 4] == '.' &&
       (name[|name| - 3] == 'p' || name[|name| - 3] == 'P') &&
       (name[|name| - 2] == 'd' || name[|name| - 2] == 'D') &&
       (name[|name| - 1] == 'f' || name[|name| - 1] == 'F'))
  {
    var low := Lower(name);
    var n := |name|;
    assert n >= 4 ==> low[n - 4..] == [low[n - 4], low[n - 3], low[n - 2], low[n - 1]];
    mime == PdfMime || EndsWith(low, ".pdf")
  }

  /** The byte at `j`, or nothing when `j` is outside the buffer (a typed-array read
      past the end gives `undefined`, which equals no byte). */
  function At(s: seq<byte>, j: int): Option<byte> {
    if 0 <= j < |s| then Some(s[j]) else None
  }

  /** The five comparisons of the scan at offset `i`. */
  predicate HeaderAt(s: seq<byte>, i: int) {
    && At(s, i) == Some(Signature[0])
    && At(s, i + 1) == Some(Signature[1])
    && At(s, i + 2) == Some(Signature[2])
    && At(s, i + 3) == Some(Signature[3])
    && At(s, i + 4) == Some(Signature[4])
  }

  /** A match needs all five bytes inside the buffer. */
  lemma HeaderAtInside(s: seq<byte>, i: int)
    ensures HeaderAt(s, i) <==> 0 <= i && i + 5 <= |s| && s[i..i + 5] == Signature
  {
    if 0 <= i && i + 5 <= |s| {
      assert s[i..i + 5] == [s[i], s[i + 1], s[i + 2], s[i + 3], s[i + 4]];
    }
  }

  /** The header scan: the first offset below min(length, 1024) at which the
      signature starts, or -1. */
  method FindHeader(data: array<byte>) returns (startIndex: int)
    ensures -1 <= startIndex < Min(data.Length, ScanWindow)
    ensures startIndex >= 0 ==> HeaderAt(data[..], startIndex)
    ensures forall j :: 0 <= j < startIndex ==> !HeaderAt(data[..], j)
    ensures startIndex == -1 ==> forall j :: 0 <= j < Min(data.Length, ScanWindow) ==> !HeaderAt(data[..], j)
  {
    startIndex := -1;
    var limit := Min(data.Length, ScanWindow);
    var i := 0;
    while i < limit
      invariant 0 <= i <= limit
      invariant forall j :: 0 <= j < i ==> !HeaderAt(data[..], j)
    {
      if At(data[..], i) == Some(Signature[0]) &&
         At(data[..], i + 1) == Some(Signature[1]) &&
         At(data[..], i + 2) == Some(Signature[2]) &&
         At(data[..], i + 3) == Some(Signature[3]) &&
         At(data[..], i + 4) == Some(Signature[4])
      {
        startIndex := i;
        break;
      }
      i := i + 1;
    }
  }

  /** `processFile`: the type test, then the header scan, then the strip. `File.size`
      is the byte length of the file, so the recorded size is `data.Length`. */
  method ProcessFile(name: string, mime: string, data: array<byte>) returns (u: Upload)
    ensures !IsPdfCandidate(mime, name) ==> u == Rejected(NotPdfType)
    ensures u.Uploaded? <==>
      IsPdfCandidate(mime, name) &&
      exists j :: 0 <= j < Min(data.Length, ScanWindow) && HeaderAt(data[..], j)
    ensures u.Rejected? && IsPdfCandidate(mime, name) ==> u.reason == NoHeader
    ensures u.Uploaded? ==>
      var k := data.Length - |u.file.data|;
      && 0 <= k < ScanWindow
      && HeaderAt(data[..], k)
      && (forall j :: 0 <= j < k ==> !HeaderAt(data[..], j))
      && u.file == PdfFile(name, data[k..], data.Length)
      && u.file.data[..5] == Signature
  {
    if mime != PdfMime && !EndsWith(Lower(name), ".pdf") {
      return Rejected(NotPdfType);
    }
    var startIndex := FindHeader(data);
    if startIndex == -1 {
      return Rejected(NoHeader);
    }
    var bytes := if startIndex == 0 then data[..] else data[startIndex..];
    HeaderAtInside(data[..], startIndex);
    assert bytes[..5] == data[..][startIndex..startIndex + 5];
    u := Uploaded(PdfFile(name, bytes, data.Length));
  }
}
