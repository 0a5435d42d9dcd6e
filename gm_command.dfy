/**
 * The GraphicsMagick side of the image-processing service: how an operation
 * (blur, resize, rotate, convert) becomes the argument list handed to `gm`,
 * and how the name of the output file is derived from the name of the
 * downloaded input file.
 *
 * Fetching the input, running `gm` and uploading the result are outside
 * the model; the local input file name is a parameter.
 */
module GmCommand {

  datatype Option<T> = None | Some(value: T)

  /** Index of the last occurrence of `c` in `s`, or -1 when there is none
      (Python's `str.rfind` for a one-character needle). */
  function LastIndex(s: string, c: char): (r: int)
    ensures -1 <= r < |s|
    ensures r >= 0 ==> s[r] == c
    ensures forall i :: r < i < |s| ==> s[i] != c
    decreases |s|
  {
    if |s| == 0 then -1
    else if s[|s| - 1] == c then |s| - 1
    else LastIndex(s[..|s| - 1], c)
  }

  /** `d` is the dot that starts the extension of path `p`: it is the last
      dot, it lies in the last path component, and that component has a
      character other than a dot before it (leading dots, as in ".bashrc",
      do not start an extension). */
  ghost predicate ExtensionDot(p: string, d: int) {
    && 0 <= d < |p|
    && p[d] == '.'
    && (forall k :: d < k < |p| ==> p[k] != '.' && p[k] != '/')
    && (exists i :: 0 <= i < d && p[i] != '.' && forall k :: i <= k < d ==> p[k] != '/')
  }

  /** Python's `os.path.splitext` on POSIX: split `p` into a root and an
      extension that is either empty or starts at the extension dot. */
  function SplitExt(p: string): (r: (string, string))
    ensures r.0 + r.1 == p
    ensures r.1 != [] <==> exists d :: ExtensionDot(p, d)
    ensures r.1 != [] ==> ExtensionDot(p, |r.0|)
  {
    var sep := LastIndex(p, '/');
    var dot := LastIndex(p, '.');
    ExtensionDotIsLastDot(p);
    if dot > sep && exists i :: sep + 1 <= i < dot && p[i] != '.' then
      var i :| sep + 1 <= i < dot && p[i] != '.';
      assert forall k :: i <= k < dot ==> p[k] != '/';
      assert ExtensionDot(p, dot);
      (p[..dot], p[dot..])
    else
      (p, [])
  }

  /** An extension dot is the last dot of the path, it lies after the last
      slash, and some character between them is not a dot. */
  lemma ExtensionDotIsLastDot(p: string)
    ensures forall d {:trigger ExtensionDot(p, d)} :: ExtensionDot(p, d) ==>
      var sep := LastIndex(p, '/');
      && d == LastIndex(p, '.')
      && sep < d
      && exists i :: sep + 1 <= i < d && p[i] != '.'
  {
  }

  /** The name `_run_gm_command` writes to: "out_" before the input name,
      and, when a new extension is asked for, the extension of that name
      replaced by "." and the new extension. */
  function OutputName(inFile: string, newExt: Option<string>): (out: string)
    ensures |out| >= 4 && out[..4] == "out_"
    ensures newExt.None? ==> out == "out_" + inFile
    ensures newExt.Some? ==>
      var n := |out| - |newExt.value| - 1;
      && 0 <= n
      && out[n..] == "." + newExt.value
      && "out_" + inFile == out[..n] + SplitExt("out_" + inFile).1
  {
    var named := "out_" + inFile;
    match newExt
    case None => named
    case Some(ext) =>
      var root := SplitExt(named).0;
      RootKeepsPrefix(named, "out_");
      root + "." + ext
  }

  /** Splitting off the extension never cuts into a dot-free prefix
      ("out_" in particular). */
  lemma RootKeepsPrefix(p: string, prefix: string)
    requires |prefix| <= |p| && p[..|prefix|] == prefix
    requires forall k :: 0 <= k < |prefix| ==> prefix[k] != '.'
    ensures |SplitExt(p).0| >= |prefix| && SplitExt(p).0[..|prefix|] == prefix
  {
  }

  /** For a plain file name (no directory part) that has a dot, the new
      extension replaces everything from the last dot on:
      "photo.jpg" becomes "out_photo.png", "a.tar.gz" becomes "out_a.tar.png". */
  lemma {:induction false} ReplacesLastExtension(inFile: string, ext: string)
    requires '/' !in inFile && '.' in inFile
    ensures var d := LastIndex(inFile, '.');
      0 <= d && OutputName(inFile, Some(ext)) == "out_" + inFile[..d] + "." + ext
  {
    var p := "out_" + inFile;
    var d := LastIndex(inFile, '.');
    var k :| 0 <= k < |inFile| && inFile[k] == '.';
    assert d >= k;
    assert p[0] == 'o';
    assert forall j :: 4 + d < j < |p| ==> p[j] == inFile[j - 4];
    assert forall j :: 0 <= j < |p| ==> p[j] != '/' by {
      forall j | 0 <= j < |p| ensures p[j] != '/' {
        if j >= 4 { assert p[j] == inFile[j - 4]; }
      }
    }
    assert ExtensionDot(p, 4 + d);
    var r := SplitExt(p);
    assert r.1 != [];
    assert ExtensionDot(p, |r.0|);
    // two extension dots of one name are the same dot: each is the last dot
    ExtensionDotIsLastDot(p);
    assert r.0 == p[..4 + d] == "out_" + inFile[..d];
  }

  /** A plain file name without a dot simply gains the new extension:
      "photo" becomes "out_photo.png". */
  lemma AppendsWhenNoExtension(inFile: string, ext: string)
    requires '.' !in inFile
    ensures OutputName(inFile, Some(ext)) == "out_" + inFile + "." + ext
  {
  }

  /** The operations of the service that run `gm`. Numeric parameters are
      carried as the text Python formats them to (`str(amount)`, and
      `scale*100` formatted before the '%' sign). */
  datatype Operation =
    | Blur(amount: string)
    | Resize(percent: string)
    | Rotate(angle: string)
    | Convert(fileExt: string)

  /** The command list each operation passes to `_run_gm_command`. */
  function CommandList(op: Operation): (cmd: seq<string>)
    ensures |cmd| >= 1 && cmd[0] == "convert"
    ensures op.Convert? <==> |cmd| == 1
    ensures !op.Convert? ==> |cmd| == 3
    ensures op.Blur? ==> cmd[1..] == ["-blur", op.amount]
    ensures op.Resize? ==> cmd[1..] == ["-resize", op.percent + "%"]
    ensures op.Rotate? ==> cmd[1..] == ["-rotate", op.angle]
  {
    match op
    case Blur(amount) => ["convert", "-blur", amount]
    case Resize(percent) => ["convert", "-resize", percent + "%"]
    case Rotate(angle) => ["convert", "-rotate", angle]
    case Convert(_) => ["convert"]
  }

  /** The new extension each operation asks for: only `convert` has one. */
  function NewExtension(op: Operation): (e: Option<string>)
    ensures e.Some? <==> op.Convert?
    ensures op.Convert? ==> e.value == op.fileExt
  {
    if op.Convert? then Some(op.fileExt) else None
  }

  /** One run of `gm`: its argument list and the file it writes. */
  datatype GmCall = GmCall(args: seq<string>, outFile: string)

  /** `_run_gm_command`: the command list followed by the input and the
      output file names. */
  function RunGmCommand(cmdList: seq<string>, inFile: string, newExt: Option<string>): (c: GmCall)
    ensures |c.args| == |cmdList| + 2
    ensures c.args[..|cmdList|] == cmdList
    ensures c.args[|cmdList|] == inFile && c.args[|cmdList| + 1] == c.outFile
    ensures c.outFile == OutputName(inFile, newExt)
  {
    var out := OutputName(inFile, newExt);
    GmCall(cmdList + [inFile, out], out)
  }

  /** The `gm` run an operation makes on a downloaded file: always
      `gm convert … <in> <out>`; the output keeps the input name behind
      "out_" unless the operation is `convert`, whose output ends in the
      requested extension. */
  function Invocation(op: Operation, inFile: string): (c: GmCall)
    ensures |c.args| == (if op.Convert? then 3 else 5)
    ensures c.args[0] == "convert"
    ensures c.args[..|c.args| - 2] == CommandList(op)
    ensures c.args[|c.args| - 2] == inFile && c.args[|c.args| - 1] == c.outFile
    ensures |c.outFile| >= 4 && c.outFile[..4] == "out_"
    ensures c.outFile == OutputName(inFile, NewExtension(op))
    ensures !op.Convert? ==> c.outFile == "out_" + inFile
    ensures op.Convert? ==>
      var n := |c.outFile| - |op.fileExt| - 1;
      0 <= n && c.outFile[n..] == "." + op.fileExt
  {
    RunGmCommand(CommandList(op), inFile, NewExtension(op))
  }

  /** Different operations on the same input file never make the same `gm`
      run: the flag and its value, or the extension the output name ends
      in, tell the operation back. */
  lemma InvocationInjective(a: Operation, b: Operation, inFile: string)
    requires Invocation(a, inFile) == Invocation(b, inFile)
    ensures a == b
  {
    var ca, cb := Invocation(a, inFile), Invocation(b, inFile);
    if a.Convert? {
      var root := SplitExt("out_" + inFile).0;
      assert ca.outFile == root + "." + a.fileExt;
      assert cb.outFile == root + "." + b.fileExt;
      assert a.fileExt == ca.outFile[|root| + 1..];
    } else {
      var ka, kb := CommandList(a), CommandList(b);
      assert ka == ca.args[..3] == kb;
      if a.Resize? {
        assert a.percent == ka[2][..|a.percent|];
        assert b.percent == kb[2][..|b.percent|];
      }
    }
  }
}
