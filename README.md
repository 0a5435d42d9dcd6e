# Image-processing service: meme layout and `gm` command model

This project is a Dafny model of the core of a small image-processing
service. The `ImageProc` service exposes blur, resize, rotate, format
conversion and meme captioning.

- **`gm` operations** (`gm_command.dfy`, module `GmCommand`).
  `blur`, `resize`, `rotate` and `convert` each build a GraphicsMagick
  command list. `_run_gm_command` names the output file `"out_" + in_file`.
  When a new extension is asked for, it replaces the extension of that name
  (as POSIX `os.path.splitext` finds it) with `"." + new_ext`. It then runs
  `gm` with the command list followed by the input and output names.
- **Meme layout** (`meme_layout.dfy`, module `MemeLayout`). `memeGenerate`
  upper-cases both captions. It then searches for a font size, starting at
  `int(H / 5)` and stepping down by one, re-measuring both captions each
  time, until both are at most `W - 20` pixels wide. Each caption is centred
  horizontally: the top one at y = 0, the bottom one ending at the bottom
  edge. The outline radius is `int(size / 15)`.
- **Meme drawing** (`meme_render.dfy`, module `MemeRender`). The image is a
  `Canvas` class that records its `draw.text` calls in order. The outline
  pass draws both captions in black at every offset of `[-R, R]²`, with dx
  in the outer loop and dy in the inner one. Then each caption is drawn once
  in white at its anchor. `MemeGenerate` puts the steps together.

Glyph measurement is a parameter `measure: (string, int) -> Extent`. It is
a total function, so measuring the same text at the same size always gives
the same extent. Nothing else is assumed about it. Python's true division in
the x coordinates is modelled with `real`. Half-pixel positions are exact
there, as they are for doubles at image sizes.

## Model

Some functions only define the vocabulary the contracts below are stated
in, and have no row of their own. `Fits` is the negation of the search
loop's condition. `SearchProbes` is the descending measurement schedule.
`Range` is Python's `range`, and `Offsets`/`OutlineOffsets` are the offsets
the nested outline loops visit. `Stamp`, `OutlineDraws` and `RenderLog` are
the draw records those loops and the final white draws make.

| member | source | states |
|---|---|---|
| `GmCommand.LastIndex` | app.py:26 | The result is -1 or an index holding the character, with no occurrence after it (the `rfind` that `splitext` relies on). |
| `GmCommand.SplitExt` | app.py:26 | Root + extension is the path. The extension is non-empty exactly when the path has an extension dot: the last dot, in the last path component, after some character that is not a dot. The extension then starts at that dot. |
| `GmCommand.ExtensionDotIsLastDot` | app.py:26 | An extension dot is the path's last dot. It lies after the last slash, with a non-dot character between the two. |
| `GmCommand.OutputName` | app.py:23-26 | The output name always starts with "out_". Without a new extension it is "out_" + input. With one, it ends in "." + ext, and what comes before is "out_" + input minus its `splitext` extension. |
| `GmCommand.RootKeepsPrefix` | app.py:26 | Removing the extension never cuts into a dot-free prefix such as "out_". |
| `GmCommand.ReplacesLastExtension` | app.py:25-26 | For a plain file name containing a dot, the new extension replaces everything from the last dot ("a.tar.gz" becomes "out_a.tar.png"). |
| `GmCommand.AppendsWhenNoExtension` | app.py:25-26 | A dot-free file name gets "." + ext appended after "out_" + name. |
| `GmCommand.CommandList` | app.py:34-44 | Every command list starts with "convert". `convert` passes just that; each other operation passes exactly one flag and its value: `-blur` and the amount, `-resize` and the percentage followed by "%", `-rotate` and the angle. |
| `GmCommand.NewExtension` | app.py:34-44 | Only `convert` passes a new extension, and it is the requested file extension. |
| `GmCommand.RunGmCommand` | app.py:20-29 | The `gm` arguments are the command list, then the input name, then the output name, and the output name is the derived one. |
| `GmCommand.Invocation` | app.py:29-44 | Each operation runs `gm` with its command list, then the input name, then the output name: 5 arguments (`convert`: 3). The output name is `OutputName` of the input with the operation's new extension. So it starts with "out_", is "out_" + input except for `convert`, and for `convert` ends in "." + the requested extension. |
| `GmCommand.InvocationInjective` | app.py:29-44 | Two operations that make the same `gm` run on the same input are the same operation, parameters included. |
| `MemeLayout.UpperChar` | app.py:48-49 | Each character maps to a character that is not a lower-case letter. Lower-case letters become their capitals and everything else is unchanged. |
| `MemeLayout.Upper` | app.py:48-49 | Upper-casing keeps the length and maps every character through `UpperChar`. |
| `MemeLayout.UpperIdempotent` | app.py:48-49 | Upper-casing twice equals upper-casing once. |
| `MemeLayout.StartSize` | app.py:58 | The first size tried is the floor of H / 5. |
| `MemeLayout.FindFontSize` | app.py:57-66 | On exit both captions fit at the chosen size, which lies in 1..floor(H/5). Every larger size up to the start fails to fit, so this is the largest fitting size. The extents returned are the measurements at that size. The measurement log is the descending schedule `SearchProbes`. |
| `MemeLayout.SearchProbesAt` | app.py:58-66 | The search measures 2·(start − size + 1) times. Step k measures the top caption, then the bottom caption, at start − k, so the size drops by exactly one per iteration. |
| `MemeLayout.SearchProbesMeasureCaptions` | app.py:60-66 | Every measurement is of one of the two captions, at a size between the chosen size and the start. |
| `MemeLayout.TopAnchor` | app.py:68-71 | The top caption is horizontally centred (x + w/2 = W/2) at y = 0. |
| `MemeLayout.BottomAnchor` | app.py:73-76 | The bottom caption is horizontally centred and ends at the bottom edge (y + h = H). |
| `MemeLayout.OutlineRadius` | app.py:81 | The outline radius R satisfies 15·R ≤ size < 15·(R+1). |
| `MemeLayout.ComputeLayout` | app.py:68-76 | Both captions are centred, the top at y = 0 and the bottom ending at H. A caption of width ≤ W − 20 starts at x ≥ 10 and ends at x + w ≤ W − 10. |
| `MemeRender.Canvas.constructor` | app.py:54-55 | An opened image has the given size and no draws yet. |
| `MemeRender.Canvas.Text` | app.py:84 | A text draw appends exactly one record (position, text, fill, font size) to the image's draw log. |
| `MemeRender.RangeAt` | app.py:82-83 | `range(lo, hi)` has max(0, hi − lo) elements, and element i is lo + i. |
| `MemeRender.RangeIncreasing` | app.py:82-83 | `range(lo, hi)` is strictly increasing and holds exactly the integers in [lo, hi). |
| `MemeRender.Column` | app.py:83-85 | The inner loop for a given dx visits (dx, dy) for each dy in order. |
| `MemeRender.OffsetsLength` | app.py:82-83 | The nested loops visit (length of dxs)·(length of dys) offsets. |
| `MemeRender.OffsetsMembers` | app.py:82-83 | The nested loops visit exactly the pairs (dx, dy) with dx from the outer range and dy from the inner range. |
| `MemeRender.OffsetsOrdered` | app.py:82-83 | Over increasing ranges the offsets come in strictly increasing (dx, then dy) order. |
| `MemeRender.OutlineOffsetsCount` | app.py:81-83 | The outline of radius R has (2R+1)² offsets. |
| `MemeRender.OutlineOffsetsCover` | app.py:81-83 | The outline offsets are exactly the (dx, dy) with −R ≤ dx, dy ≤ R. |
| `MemeRender.OutlineOffsetsOrdered` | app.py:81-83 | The outline offsets are in strictly increasing order, so no offset appears twice. |
| `MemeRender.OutlineDrawsAt` | app.py:82-85 | The outline pass issues two draws per offset. Draw 2k is the top caption in black moved by the k-th offset; draw 2k+1 is the bottom caption moved the same way. |
| `MemeRender.RenderLogShape` | app.py:81-88 | Everything `memeGenerate` draws is two black draws per outline offset (top caption then bottom caption, moved by that offset; with `OutlineOffsetsCount`, 2·(2R+1)² in all), then the top caption and the bottom caption in white at their exact anchors. |
| `MemeRender.RenderLogColours` | app.py:82-88 | Every draw except the last two is black, and the last two are white. Every draw shows one of the two captions with the chosen font. |
| `MemeRender.DrawOutlineColumn` | app.py:83-85 | The inner loop appends the two black draws for each dy of the column, in order. |
| `MemeRender.DrawOutline` | app.py:82-85 | The nested loops append exactly the outline draws for every offset of radius R. |
| `MemeRender.DrawCaptions` | app.py:78-88 | The image's draw log gains exactly `RenderLog`: the outline pass, then the two white draws. |
| `MemeRender.MemeGenerate` | app.py:46-93 | The output file is "out_" + input, and the drawn texts are the upper-cased captions. The font size is the largest fitting size in 1..floor(H/5), and the measurements were of the upper-cased captions in descending size order. The layout is computed from the extents at that size, and the image's draw log gains exactly the outline and white draws of that layout. |

## Left out

- Downloading the input and uploading the result (`stackhut.download_file`, `stackhut.put_file`) are network I/O. The downloaded local file name is a parameter.
- Running the `gm` subprocess is not modelled. The blur, resize, rotate and convert transforms are done by GraphicsMagick itself; the model stops at the argument list.
- `Image.open` and `img.save` are file I/O. The opened image is a `Canvas` that carries only its size and draw log; no pixels are modelled.
- Font loading is not modelled: resolving `Impact.ttf` under the resource directory (`get_res`) and `ImageFont.truetype`.
- Real glyph metrics are not modelled. `getsize` is the `measure` parameter, and nothing is assumed about it (not even monotonicity in the size).
- `str(amount)` and `'{}%'.format(scale*100)` are float-to-string formatting. The formatted text is a parameter of the operation, and only the "%" the format appends is modelled.
- Service registration (`SERVICES`, `stackhut.Service`) and the constructor's resource-directory path are left out.
- `MemeLayout.Upper`: upper-cases ASCII letters only. Python's `str.upper` also maps other Unicode letters, some to several characters.
- `MemeLayout.FindFontSize`: requires that some size from 1 to floor(H/5) fits. The source loop has no lower bound. When no such size fits (for example when W ≤ 20, or H < 5 so the first size is 0), the loop goes on to sizes of 0 and below. What happens then is decided inside the font library, so that case is not modelled.
- The x coordinates use exact real arithmetic where the source uses doubles. The two agree whenever W/2 − w/2 is representable, which covers every realistic image size.
