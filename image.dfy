/** The transcoding adapter: it sends the decoded image to a `convert` process that scales it and
    re-encodes it as JPEG, collects the process's output and settles with a JPEG data URL, or
    rejects when the process fails. */
module Image {
  import opened Wrappers
  import opened Streams
  import DataUrl

  /** The scale used when the caller gives none, in percent. */
  const DefaultScale: int := 50

  /** The prefix of every data URL the adapter produces, whatever type the input declared. */
  const JpegPrefix: string := "data:image/jpeg;base64,"

  /** The message of the error the adapter rejects with. */
  const ResizeFailed: string := "Failed to resize image"

  predicate IsDigit(c: char) {
    '0' <= c <= '9'
  }

  /** The decimal digits of `n`, most significant first, without leading zeros. */
  function Decimal(n: nat): (r: string)
    ensures |r| > 0 && (|r| > 1 ==> r[0] != '0')
    ensures forall i :: 0 <= i < |r| ==> IsDigit(r[i])
  {
    if n < 10 then [(48 + n) as char] else Decimal(n / 10) + [(48 + n % 10) as char]
  }

  /** The number a string of decimal digits denotes. */
  function DecimalValue(s: string): int
    requires forall i :: 0 <= i < |s| ==> IsDigit(s[i])
  {
    if s == [] then 0 else 10 * DecimalValue(s[..|s| - 1]) + (s[|s| - 1] as int - 48)
  }

  /** Reading the digits back gives the number that was written. */
  lemma {:induction false} DecimalRoundTrip(n: nat)
    ensures DecimalValue(Decimal(n)) == n
  {
    if n >= 10 {
      var r := Decimal(n);
      assert r[..|r| - 1] == Decimal(n / 10);
      DecimalRoundTrip(n / 10);
    }
  }

  /** The `-resize` argument: the scale as an integer in decimal, followed by a percent sign. */
  function ScaleArgument(scale: int): (r: string)
    ensures |r| >= 2 && r[|r| - 1] == '%'
    ensures scale >= 0 ==> r == Decimal(scale) + "%"
    ensures scale < 0 ==> r == "-" + Decimal(-scale) + "%"
  {
    (if scale < 0 then "-" + Decimal(-scale) else Decimal(scale)) + "%"
  }

  /** The default scale is passed as "50%". */
  lemma DefaultScaleArgument()
    ensures ScaleArgument(DefaultScale) == "50%"
  {
    assert Decimal(5) == "5";
  }

  /** The `convert` command line: read standard input, resize by the scale, write JPEG to standard
      output. */
  function ConvertArguments(scale: int): (args: seq<string>)
    ensures |args| == 4 && args[1] == "-resize" && args[2] == ScaleArgument(scale)
    ensures args[0] == "-" && args[3] == "jpeg:-"
  {
    ["-", "-resize", ScaleArgument(scale), "jpeg:-"]
  }

  /** The decision of the 'close' listener: any status other than exit code 0 rejects with the
      fixed message; exit code 0 resolves with the output, base64-encoded, behind the JPEG prefix,
      so stripping that prefix gives back the encoded output. */
  function OnClose(status: ExitStatus, output: seq<byte>, toBase64: seq<byte> -> string): (r: Settlement<string>)
    ensures r.Rejected? <==> !Succeeded(status)
    ensures r.Rejected? ==> r.reason == ResizeFailed
    ensures r.Resolved? ==> |r.value| >= |JpegPrefix| && r.value[..|JpegPrefix|] == JpegPrefix
    ensures r.Resolved? ==> DataUrl.Strip(r.value) == toBase64(output)
  {
    if !Succeeded(status) then
      Rejected(ResizeFailed)
    else
      var encoded := toBase64(output);
      assert JpegPrefix + encoded == DataUrl.Scheme + "jpeg" + DataUrl.Marker + encoded;
      DataUrl.StripWrapped("jpeg", encoded);
      Resolved(JpegPrefix + encoded)
  }

  /** `resizeImage(imageData, scale)` against one run of the `convert` process. It returns the
      arguments and the standard input the process is given, how the promise settles, and the
      standard-error text it reports when the process fails. A call without a scale resizes by
      `DefaultScale`. */
  method ResizeImage(
    imageData: string, run: ProcessRun,
    fromBase64: string -> seq<byte>, toBase64: seq<byte> -> string, toText: seq<byte> -> string,
    scale: int := DefaultScale)
    returns (args: seq<string>, stdin: seq<byte>, settled: Settlement<string>, reported: Option<string>)
    ensures args == ConvertArguments(scale)
    ensures stdin == fromBase64(DataUrl.Strip(imageData))
    ensures settled == OnClose(run.status, Concat(run.stdout), toBase64)
    ensures Succeeded(run.status) ==> reported == None
    ensures !Succeeded(run.status) ==> reported == Some(Concat(DecodeEach(run.stderr, toText)))
  {
    var base64Data := DataUrl.Strip(imageData);
    stdin := fromBase64(base64Data);
    args := ConvertArguments(scale);
    var outputBuffer := Accumulate(run.stdout);
    var errorOutput := Accumulate(DecodeEach(run.stderr, toText));
    reported := if Succeeded(run.status) then None else Some(errorOutput);
    settled := OnClose(run.status, outputBuffer, toBase64);
  }

  /** A successful resize always yields a JPEG data URL, whatever image type the input named, and
      its payload is the base64 encoding of all output chunks in order. */
  lemma ResizedIsJpegOfOutput(status: ExitStatus, chunks: seq<seq<byte>>, toBase64: seq<byte> -> string)
    requires Succeeded(status)
    ensures OnClose(status, Concat(chunks), toBase64) == Resolved(JpegPrefix + toBase64(Concat(chunks)))
  {
  }
}
