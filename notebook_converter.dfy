/**
 * backend/notebook_converter.py over an already parsed notebook: the script
 * converter (keep the code cells that are not shell or magic commands, then write
 * them as numbered blocks under a header) and the notebook analyser (which
 * libraries the code mentions, and which model family it builds).
 */
module NotebookConverter {
  import opened Wrappers
  import opened Text
  import opened Json

  /** How one entry of the notebook's cell list is read: skipped, code with its text, or a value on which Python raises. */
  datatype CellReading = NotCode | Code(text: string) | Broken

  /** The entries `for cell in notebook.get('cells', [])` visits; `None` where Python raises. */
  function NotebookCells(notebook: Value): Option<seq<Value>> {
    match notebook
    case Object(fields) => Iterate(Get(fields, "cells", Array([])))
    case _ => None
  }

  /** `cell.get('cell_type') == 'code'` on a dictionary cell. */
  predicate IsCodeCell(fields: seq<(string, Value)>) {
    Get(fields, "cell_type", Null) == Str("code")
  }

  /** The converter's `source` handling: a list is joined, anything else must already be a string for `strip()`. */
  function ScriptSource(source: Value): Option<string> {
    if source.Array? then Join(source)
    else if source.Str? then Some(source.s)
    else None
  }

  /** How the converter reads one entry of the cell list. */
  function ReadForScript(cell: Value): CellReading {
    match cell
    case Object(fields) =>
      if !IsCodeCell(fields) then NotCode
      else (match ScriptSource(Get(fields, "source", Array([])))
        case None => Broken
        case Some(code) => Code(code))
    case _ => Broken
  }

  /** `code.strip().startswith(('!', '%', '%%'))`: a shell or magic command. */
  predicate IsMagic(code: string) {
    var t := Strip(code);
    StartsWith(t, "!") || StartsWith(t, "%") || StartsWith(t, "%%")
  }

  /** A cell is a command exactly when its first non-whitespace character is `!` or `%`. */
  lemma IsMagicIff(code: string)
    ensures IsMagic(code) <==> exists i :: 0 <= i < |code| && (code[i] == '!' || code[i] == '%')
                                         && forall j :: 0 <= j < i ==> IsSpace(code[j])
  {
    StripStartsAtFirstNonSpace(code, '!');
    StripStartsAtFirstNonSpace(code, '%');
  }

  /** Empty and whitespace-only cells are kept. */
  lemma BlankCellIsKept(code: string)
    requires forall j :: 0 <= j < |code| ==> IsSpace(code[j])
    ensures !IsMagic(code)
  {
    IsMagicIff(code);
  }

  /** What one entry adds to the kept cells: nothing, its text, or a failure. */
  function Contribution(cell: Value): (r: Option<seq<string>>)
    ensures r.None? <==> ReadForScript(cell).Broken?
    ensures r.Some? ==> forall code :: code in r.value <==> ReadForScript(cell) == Code(code) && !IsMagic(code)
  {
    match ReadForScript(cell)
    case Broken => None
    case NotCode => Some([])
    case Code(code) => Some(if IsMagic(code) then [] else [code])
  }

  /** Appending two partial results; a failure on either side is a failure. */
  function Combine(x: Option<seq<string>>, y: Option<seq<string>>): (r: Option<seq<string>>)
    ensures r.Some? <==> x.Some? && y.Some?
  {
    if x.Some? && y.Some? then Some(x.value + y.value) else None
  }

  /** The concatenation of what `part` gives for each entry, in order; `None` once an entry gives `None`. */
  function Collect(cells: seq<Value>, part: Value -> Option<seq<string>>): Option<seq<string>>
  {
    if cells == [] then Some([]) else Combine(Collect(cells[..|cells| - 1], part), part(cells[|cells| - 1]))
  }

  lemma CollectSnoc(cells: seq<Value>, cell: Value, part: Value -> Option<seq<string>>)
    ensures Collect(cells + [cell], part) == Combine(Collect(cells, part), part(cell))
  {
    assert (cells + [cell])[..|cells|] == cells;
  }

  lemma CombineAssociative(x: Option<seq<string>>, y: Option<seq<string>>, z: Option<seq<string>>)
    ensures Combine(Combine(x, y), z) == Combine(x, Combine(y, z))
  {
    if x.Some? && y.Some? && z.Some? {
      assert (x.value + y.value) + z.value == x.value + (y.value + z.value);
    }
  }

  /** Collecting works entry by entry: the parts of a concatenation come in order. */
  lemma {:induction false} CollectAppend(a: seq<Value>, b: seq<Value>, part: Value -> Option<seq<string>>)
    ensures Collect(a + b, part) == Combine(Collect(a, part), Collect(b, part))
  {
    if b == [] {
      assert a + b == a;
      if Collect(a, part).Some? {
        assert Collect(a, part).value + [] == Collect(a, part).value;
      }
    } else {
      var b', c := b[..|b| - 1], b[|b| - 1];
      calc {
        Collect(a + b, part);
        { assert a + b == (a + b') + [c]; }
        Collect((a + b') + [c], part);
        { CollectSnoc(a + b', c, part); }
        Combine(Collect(a + b', part), part(c));
        { CollectAppend(a, b', part); }
        Combine(Combine(Collect(a, part), Collect(b', part)), part(c));
        { CombineAssociative(Collect(a, part), Collect(b', part), part(c)); }
        Combine(Collect(a, part), Combine(Collect(b', part), part(c)));
        { CollectSnoc(b', c, part); assert b' + [c] == b; }
        Combine(Collect(a, part), Collect(b, part));
      }
    }
  }

  /** Collecting fails exactly when some entry's part fails. */
  lemma {:induction false} CollectFails(cells: seq<Value>, part: Value -> Option<seq<string>>)
    ensures Collect(cells, part).None? <==> exists i :: 0 <= i < |cells| && part(cells[i]).None?
  {
    if cells != [] {
      var init := cells[..|cells| - 1];
      CollectFails(init, part);
      if exists i :: 0 <= i < |init| && part(init[i]).None? {
        var i :| 0 <= i < |init| && part(init[i]).None?;
        assert init[i] == cells[i];
      }
      if exists i :: 0 <= i < |cells| && part(cells[i]).None? {
        var i :| 0 <= i < |cells| && part(cells[i]).None?;
        if i < |init| {
          assert init[i] == cells[i];
        }
      }
    }
  }

  /** An element of the collected sequence is an element of some entry's part, and every such element is collected. */
  lemma {:induction false} CollectMembers(cells: seq<Value>, part: Value -> Option<seq<string>>, x: string)
    requires Collect(cells, part).Some?
    ensures x in Collect(cells, part).value <==>
      exists i :: 0 <= i < |cells| && part(cells[i]).Some? && x in part(cells[i]).value
  {
    if cells != [] {
      var init := cells[..|cells| - 1];
      CollectMembers(init, part, x);
      if exists i :: 0 <= i < |init| && part(init[i]).Some? && x in part(init[i]).value {
        var i :| 0 <= i < |init| && part(init[i]).Some? && x in part(init[i]).value;
        assert init[i] == cells[i];
      }
      if exists i :: 0 <= i < |cells| && part(cells[i]).Some? && x in part(cells[i]).value {
        var i :| 0 <= i < |cells| && part(cells[i]).Some? && x in part(cells[i]).value;
        if i < |init| {
          assert init[i] == cells[i];
        }
      }
    }
  }

  /** The texts of the kept code cells, in notebook order; `None` once an entry makes Python raise. */
  function KeptCells(cells: seq<Value>): Option<seq<string>> {
    Collect(cells, Contribution)
  }

  /** Keeping cells works cell by cell: the kept cells of a concatenation are those of each part, in order. */
  lemma KeptCellsAppend(a: seq<Value>, b: seq<Value>)
    ensures KeptCells(a + b) == Combine(KeptCells(a), KeptCells(b))
  {
    CollectAppend(a, b, Contribution);
  }

  /** Converting fails exactly when some entry of the cell list makes Python raise. */
  lemma KeptCellsFails(cells: seq<Value>)
    ensures KeptCells(cells).None? <==> exists i :: 0 <= i < |cells| && ReadForScript(cells[i]).Broken?
  {
    CollectFails(cells, Contribution);
  }

  /** A text is kept exactly when it is the text of a code cell that is not a command. */
  lemma KeptCellsMembers(cells: seq<Value>, code: string)
    requires KeptCells(cells).Some?
    ensures code in KeptCells(cells).value <==>
      exists i :: 0 <= i < |cells| && ReadForScript(cells[i]) == Code(code) && !IsMagic(code)
  {
    CollectMembers(cells, Contribution, code);
    CollectFails(cells, Contribution);
  }

  /** The first lines of every converted script. */
  function Header(notebookPath: string): string {
    "# Converted from Jupyter Notebook\n" + "# Original file: " + notebookPath + "\n\n"
  }

  /** The block written for the `n`-th kept cell. */
  function Block(n: nat, code: string): string {
    "# Cell " + NatToString(n) + "\n" + code + "\n\n"
  }

  /** The blocks `render` gives for `codes`, numbered `first`, `first + 1`, ... in order. */
  function NumberedFrom(codes: seq<string>, first: nat, render: (nat, string) -> string): string
  {
    if codes == [] then "" else render(first, codes[0]) + NumberedFrom(codes[1..], first + 1, render)
  }

  /** The blocks `render` gives for `codes`, each numbered by its position counted from 1, built from the last one. */
  function Blocks(codes: seq<string>, render: (nat, string) -> string): string
  {
    if codes == [] then "" else Blocks(codes[..|codes| - 1], render) + render(|codes|, codes[|codes| - 1])
  }

  /** The script text the converter writes for the kept cells `codes`. */
  function Script(notebookPath: string, codes: seq<string>): string {
    Header(notebookPath) + NumberedFrom(codes, 1, Block)
  }

  /** Numbering blocks from the front and from the back agree: the cells are numbered 1, 2, ... consecutively. */
  lemma {:induction false} BlocksAreNumberedFromOne(codes: seq<string>, render: (nat, string) -> string)
    ensures Blocks(codes, render) == NumberedFrom(codes, 1, render)
  {
    BlocksSplit([], codes, render);
    assert [] + codes == codes;
  }

  lemma {:induction false} BlocksSplit(a: seq<string>, b: seq<string>, render: (nat, string) -> string)
    ensures Blocks(a + b, render) == Blocks(a, render) + NumberedFrom(b, |a| + 1, render)
    decreases |b|
  {
    if b == [] {
      assert a + b == a;
    } else {
      var a' := a + [b[0]];
      calc {
        Blocks(a + b, render);
        { assert a + b == a' + b[1..]; }
        Blocks(a' + b[1..], render);
        { BlocksSplit(a', b[1..], render); }
        Blocks(a', render) + NumberedFrom(b[1..], |a'| + 1, render);
        { assert a'[..|a'| - 1] == a; }
        (Blocks(a, render) + render(|a| + 1, b[0])) + NumberedFrom(b[1..], |a| + 2, render);
        Blocks(a, render) + (render(|a| + 1, b[0]) + NumberedFrom(b[1..], |a| + 2, render));
        Blocks(a, render) + NumberedFrom(b, |a| + 1, render);
      }
    }
  }

  /** Converting gives the header followed by the blocks of the kept cells; `None` is Python's `False`. */
  function Converted(notebookPath: string, notebook: Value): Option<string> {
    match NotebookCells(notebook)
    case None => None
    case Some(cells) =>
      match KeptCells(cells)
      case None => None
      case Some(codes) => Some(Script(notebookPath, codes))
  }

  /** Reading one more cell appends its contribution to what the earlier cells kept. */
  lemma KeptCellsStep(cells: seq<Value>, i: nat)
    requires i < |cells|
    ensures KeptCells(cells[..i + 1]) == Combine(KeptCells(cells[..i]), Contribution(cells[i]))
  {
    CollectSnoc(cells[..i], cells[i], Contribution);
    assert cells[..i + 1] == cells[..i] + [cells[i]];
  }

  /** The first half of `convert_notebook_to_script`: the texts of the kept code cells, in order. */
  method CollectCodeCells(cells: seq<Value>) returns (codeCells: Option<seq<string>>)
    ensures codeCells == KeptCells(cells)
  {
    var kept: seq<string> := [];
    var i := 0;
    while i < |cells|
      invariant 0 <= i <= |cells|
      invariant KeptCells(cells[..i]) == Some(kept)
    {
      KeptCellsStep(cells, i);
      match ReadForScript(cells[i]) {
        case Broken =>
          KeptCellsFails(cells);
          return None;
        case NotCode =>
          assert kept + [] == kept;
        case Code(code) =>
          if !IsMagic(code) {
            kept := kept + [code];
          } else {
            assert kept + [] == kept;
          }
      }
      i := i + 1;
    }
    assert cells[..i] == cells;
    codeCells := Some(kept);
  }

  /** The two header writes, naming the notebook the script comes from. */
  method WriteHeader(notebookPath: string) returns (written: string)
    ensures written == Header(notebookPath)
  {
    written := "# Converted from Jupyter Notebook\n";
    written := written + "# Original file: " + notebookPath + "\n\n";
  }

  /** The three writes for the `n`-th kept cell append exactly its block. */
  method WriteCell(text: string, n: nat, code: string) returns (written: string)
    ensures written == text + Block(n, code)
  {
    written := text + "# Cell " + NatToString(n) + "\n";
    written := written + code;
    written := written + "\n\n";
  }

  /** One more cell adds one more block, numbered by its position. */
  lemma BlocksPrefix(codes: seq<string>, j: nat, render: (nat, string) -> string)
    requires j < |codes|
    ensures Blocks(codes[..j + 1], render) == Blocks(codes[..j], render) + render(j + 1, codes[j])
  {
    assert codes[..j + 1][..j] == codes[..j];
  }

  /** The loop of `convert_notebook_to_script` that writes one numbered block per kept cell after `text`. */
  method WriteCells(text: string, codeCells: seq<string>) returns (written: string)
    ensures written == text + Blocks(codeCells, Block)
  {
    written := text;
    var j := 0;
    while j < |codeCells|
      invariant 0 <= j <= |codeCells|
      invariant written == text + Blocks(codeCells[..j], Block)
    {
      written := WriteCell(written, j + 1, codeCells[j]);
      BlocksPrefix(codeCells, j, Block);
      j := j + 1;
    }
    assert codeCells[..j] == codeCells;
  }

  /** The second half of `convert_notebook_to_script`: the text written to the output file. */
  method WriteScript(notebookPath: string, codeCells: seq<string>) returns (text: string)
    ensures text == Script(notebookPath, codeCells)
  {
    text := WriteHeader(notebookPath);
    text := WriteCells(text, codeCells);
    BlocksAreNumberedFromOne(codeCells, Block);
  }

  /**
   * `convert_notebook_to_script`: collect the kept code cells, then write the
   * header and one numbered block per kept cell. The result is the text
   * written, or `None` where the function returns `False`.
   */
  method ConvertNotebookToScript(notebookPath: string, notebook: Value) returns (script: Option<string>)
    ensures script == Converted(notebookPath, notebook)
  {
    var entries := NotebookCells(notebook);
    if entries.None? {
      return None;
    }
    var codeCells := CollectCodeCells(entries.value);
    if codeCells.None? {
      return None;
    }
    var text := WriteScript(notebookPath, codeCells.value);
    script := Some(text);
  }

  /** A library `extract_model_info` can report. */
  datatype Library = Sklearn | TensorFlow | PyTorch {
    function Name(): string {
      match this
      case Sklearn => "sklearn"
      case TensorFlow => "tensorflow"
      case PyTorch => "pytorch"
    }
  }

  /** The substring tests that add a library. */
  predicate Mentions(lib: Library, source: string) {
    match lib
    case Sklearn => Contains(source, "sklearn") || Contains(source, "from sklearn")
    case TensorFlow => Contains(source, "tensorflow") || Contains(source, "keras")
    case PyTorch => Contains(source, "torch") || Contains(source, "pytorch")
  }

  /** The `'from sklearn'` and `'pytorch'` tests are subsumed by the shorter ones. */
  lemma MentionsSimplified(source: string)
    ensures Mentions(Sklearn, source) <==> Contains(source, "sklearn")
    ensures Mentions(PyTorch, source) <==> Contains(source, "torch")
  {
    assert OccursAt("from sklearn", "sklearn", 5);
    ContainsIffOccurs("from sklearn", "sklearn");
    if Contains(source, "from sklearn") {
      ContainsTransitive(source, "from sklearn", "sklearn");
    }
    assert OccursAt("pytorch", "torch", 2);
    ContainsIffOccurs("pytorch", "torch");
    if Contains(source, "pytorch") {
      ContainsTransitive(source, "pytorch", "torch");
    }
  }

  /** The libraries one cell's source mentions. */
  function LibrariesIn(source: string): (r: set<Library>)
    ensures forall lib :: lib in r <==> Mentions(lib, source)
  {
    (if Mentions(Sklearn, source) then {Sklearn} else {})
    + (if Mentions(TensorFlow, source) then {TensorFlow} else {})
    + (if Mentions(PyTorch, source) then {PyTorch} else {})
  }

  /** A model family `extract_model_info` can report, in the order its tests are tried. */
  datatype ModelKind = RandomForest | LogisticRegression | XGBoost | NeuralNetwork {
    function Name(): string {
      match this
      case RandomForest => "RandomForestClassifier"
      case LogisticRegression => "LogisticRegression"
      case XGBoost => "XGBoost"
      case NeuralNetwork => "Neural Network (Keras)"
    }

    /** The position of this family's test in the if/elif chain. */
    function Rank(): nat {
      match this
      case RandomForest => 0
      case LogisticRegression => 1
      case XGBoost => 2
      case NeuralNetwork => 3
    }
  }

  /** The substring tests for one model family. */
  predicate MentionsKind(kind: ModelKind, source: string) {
    match kind
    case RandomForest => Contains(source, "RandomForest")
    case LogisticRegression => Contains(source, "LogisticRegression")
    case XGBoost => Contains(source, "XGBoost") || Contains(source, "xgb")
    case NeuralNetwork => Contains(source, "Sequential") || Contains(source, "Model(")
  }

  /** The model family one cell sets, if any: the if/elif chain. */
  function DetectKind(source: string): Option<ModelKind> {
    if Contains(source, "RandomForest") then Some(RandomForest)
    else if Contains(source, "LogisticRegression") then Some(LogisticRegression)
    else if Contains(source, "XGBoost") || Contains(source, "xgb") then Some(XGBoost)
    else if Contains(source, "Sequential") || Contains(source, "Model(") then Some(NeuralNetwork)
    else None
  }

  /** Within a cell the earliest family of the chain that the source mentions wins. */
  lemma DetectKindPicksFirstMentioned(source: string)
    ensures DetectKind(source).None? <==> forall k: ModelKind :: !MentionsKind(k, source)
    ensures DetectKind(source).Some? ==>
      && MentionsKind(DetectKind(source).value, source)
      && forall k: ModelKind :: k.Rank() < DetectKind(source).value.Rank() ==> !MentionsKind(k, source)
  {
    if DetectKind(source).None? {
      forall k: ModelKind ensures !MentionsKind(k, source) {
        match k
        case RandomForest =>
        case LogisticRegression =>
        case XGBoost =>
        case NeuralNetwork =>
      }
    } else {
      assert MentionsKind(DetectKind(source).value, source);
    }
  }

  /** The dictionary `extract_model_info` returns; `features` is always empty. */
  datatype ModelInfo = ModelInfo(modelType: Option<ModelKind>, features: seq<string>, libraries: set<Library>)

  /** How the analyser reads one entry of the cell list: `''.join(cell.get('source', []))` for a code cell. */
  function ReadForAnalysis(cell: Value): CellReading {
    match cell
    case Object(fields) =>
      if !IsCodeCell(fields) then NotCode
      else (match Join(Get(fields, "source", Array([])))
        case None => Broken
        case Some(source) => Code(source))
    case _ => Broken
  }

  /** The analyser reads the same text as the converter from every code cell the converter accepts. */
  lemma AnalysisReadsScriptText(cell: Value)
    requires ReadForScript(cell).Code?
    ensures ReadForAnalysis(cell) == ReadForScript(cell)
  {
    var source := Get(cell.fields, "source", Array([]));
    if source.Str? {
      JoinString(source.s);
    }
  }

  /** What the analysis loop learns from one entry: the libraries its code mentions and the family it sets, if any. */
  datatype CellFindings = CellFindings(libraries: set<Library>, kind: Option<ModelKind>)

  /** The findings of one entry; `None` where Python raises on it. Only code cells are scanned. */
  function Findings(cell: Value): (r: Option<CellFindings>)
    ensures r.None? <==> ReadForAnalysis(cell).Broken?
    ensures ReadForAnalysis(cell).NotCode? ==> r == Some(CellFindings({}, None))
    ensures ReadForAnalysis(cell).Code? ==>
      r == Some(CellFindings(LibrariesIn(ReadForAnalysis(cell).text), DetectKind(ReadForAnalysis(cell).text)))
  {
    match ReadForAnalysis(cell)
    case Broken => None
    case NotCode => Some(CellFindings({}, None))
    case Code(source) => Some(CellFindings(LibrariesIn(source), DetectKind(source)))
  }

  /** The information after one more entry: libraries accumulate, and a family found overwrites the earlier one. */
  function Merge(info: Option<ModelInfo>, found: Option<CellFindings>): (r: Option<ModelInfo>)
    ensures r.Some? <==> info.Some? && found.Some?
  {
    if info.Some? && found.Some? then
      Some(ModelInfo(
        if found.value.kind.Some? then found.value.kind else info.value.modelType,
        info.value.features,
        info.value.libraries + found.value.libraries))
    else None
  }

  /** What a scan of `cells` with `scan` gathers, starting from no family, no features and no libraries. */
  function Gather(cells: seq<Value>, scan: Value -> Option<CellFindings>): Option<ModelInfo>
  {
    if cells == [] then Some(ModelInfo(None, [], {}))
    else Merge(Gather(cells[..|cells| - 1], scan), scan(cells[|cells| - 1]))
  }

  lemma GatherSnoc(cells: seq<Value>, cell: Value, scan: Value -> Option<CellFindings>)
    ensures Gather(cells + [cell], scan) == Merge(Gather(cells, scan), scan(cell))
  {
    assert (cells + [cell])[..|cells|] == cells;
  }

  /** A scan fails exactly when some entry fails; the feature list stays empty. */
  lemma {:induction false} GatherFails(cells: seq<Value>, scan: Value -> Option<CellFindings>)
    ensures Gather(cells, scan).None? <==> exists i :: 0 <= i < |cells| && scan(cells[i]).None?
    ensures Gather(cells, scan).Some? ==> Gather(cells, scan).value.features == []
  {
    if cells != [] {
      var init := cells[..|cells| - 1];
      GatherFails(init, scan);
      if exists i :: 0 <= i < |init| && scan(init[i]).None? {
        var i :| 0 <= i < |init| && scan(init[i]).None?;
        assert init[i] == cells[i];
      }
      if exists i :: 0 <= i < |cells| && scan(cells[i]).None? {
        var i :| 0 <= i < |cells| && scan(cells[i]).None?;
        if i < |init| {
          assert init[i] == cells[i];
        }
      }
    }
  }

  /** The libraries gathered are those some entry reports. */
  lemma {:induction false} GatherLibraries(cells: seq<Value>, scan: Value -> Option<CellFindings>, lib: Library)
    requires Gather(cells, scan).Some?
    ensures lib in Gather(cells, scan).value.libraries <==>
      exists i :: 0 <= i < |cells| && scan(cells[i]).Some? && lib in scan(cells[i]).value.libraries
  {
    if cells != [] {
      var init := cells[..|cells| - 1];
      GatherLibraries(init, scan, lib);
      if exists i :: 0 <= i < |init| && scan(init[i]).Some? && lib in scan(init[i]).value.libraries {
        var i :| 0 <= i < |init| && scan(init[i]).Some? && lib in scan(init[i]).value.libraries;
        assert init[i] == cells[i];
      }
      if exists i :: 0 <= i < |cells| && scan(cells[i]).Some? && lib in scan(cells[i]).value.libraries {
        var i :| 0 <= i < |cells| && scan(cells[i]).Some? && lib in scan(cells[i]).value.libraries;
        if i < |init| {
          assert init[i] == cells[i];
        }
      }
    }
  }

  /** An entry whose findings set a family. */
  predicate SetsKind(scan: Value -> Option<CellFindings>, cell: Value) {
    scan(cell).Some? && scan(cell).value.kind.Some?
  }

  /** The family gathered is the one reported by the last entry that reports one. */
  lemma {:induction false} GatherLastKind(cells: seq<Value>, scan: Value -> Option<CellFindings>)
    requires Gather(cells, scan).Some?
    ensures Gather(cells, scan).value.modelType.None? <==> forall i :: 0 <= i < |cells| ==> !SetsKind(scan, cells[i])
    ensures Gather(cells, scan).value.modelType.Some? ==>
      exists i :: 0 <= i < |cells| && SetsKind(scan, cells[i])
        && scan(cells[i]).value.kind == Gather(cells, scan).value.modelType
        && forall j :: i < j < |cells| ==> !SetsKind(scan, cells[j])
  {
    if cells != [] {
      var init := cells[..|cells| - 1];
      var last := cells[|cells| - 1];
      GatherLastKind(init, scan);
      assert forall i :: 0 <= i < |init| ==> cells[i] == init[i];
      if SetsKind(scan, last) {
        assert SetsKind(scan, cells[|cells| - 1]);
      } else if Gather(init, scan).value.modelType.Some? {
        var i :| 0 <= i < |init| && SetsKind(scan, init[i])
          && scan(init[i]).value.kind == Gather(init, scan).value.modelType
          && forall j :: i < j < |init| ==> !SetsKind(scan, init[j]);
        assert SetsKind(scan, cells[i]);
      }
    }
  }

  /** What the analysis loop has gathered after `cells`; `None` once an entry makes Python raise. */
  function Analyze(cells: seq<Value>): Option<ModelInfo> {
    Gather(cells, Findings)
  }

  /** A code cell whose source mentions `lib`. */
  predicate CodeMentions(cell: Value, lib: Library) {
    ReadForAnalysis(cell).Code? && Mentions(lib, ReadForAnalysis(cell).text)
  }

  /** A code cell that sets the model family. */
  predicate Decides(cell: Value) {
    ReadForAnalysis(cell).Code? && DetectKind(ReadForAnalysis(cell).text).Some?
  }

  /** Analysis fails exactly when some entry makes Python raise; the feature list stays empty. */
  lemma AnalyzeFails(cells: seq<Value>)
    ensures Analyze(cells).None? <==> exists i :: 0 <= i < |cells| && ReadForAnalysis(cells[i]).Broken?
    ensures Analyze(cells).Some? ==> Analyze(cells).value.features == []
  {
    GatherFails(cells, Findings);
  }

  /** A library is reported exactly when some code cell mentions it; other cells are never scanned. */
  lemma LibrariesFound(cells: seq<Value>, lib: Library)
    requires Analyze(cells).Some?
    ensures lib in Analyze(cells).value.libraries <==> exists i :: 0 <= i < |cells| && CodeMentions(cells[i], lib)
  {
    GatherLibraries(cells, Findings, lib);
    GatherFails(cells, Findings);
  }

  /**
   * The model family is the one set by the last cell that sets any: a cell
   * without a match keeps the earlier family, and with no match at all it is
   * `None`.
   */
  lemma ModelTypeFromLastMatch(cells: seq<Value>)
    requires Analyze(cells).Some?
    ensures Analyze(cells).value.modelType.None? <==> forall i :: 0 <= i < |cells| ==> !Decides(cells[i])
    ensures Analyze(cells).value.modelType.Some? ==>
      exists i :: 0 <= i < |cells| && Decides(cells[i])
        && DetectKind(ReadForAnalysis(cells[i]).text) == Analyze(cells).value.modelType
        && forall j :: i < j < |cells| ==> !Decides(cells[j])
  {
    GatherLastKind(cells, Findings);
    assert forall c :: SetsKind(Findings, c) <==> Decides(c);
  }

  /** The library tests of `extract_model_info` on one code cell's source, added to `libraries`. */
  method DetectLibraries(source: string, libraries: set<Library>) returns (found: set<Library>)
    ensures found == libraries + LibrariesIn(source)
  {
    found := libraries;
    if Contains(source, "sklearn") || Contains(source, "from sklearn") {
      found := found + {Sklearn};
    }
    if Contains(source, "tensorflow") || Contains(source, "keras") {
      found := found + {TensorFlow};
    }
    if Contains(source, "torch") || Contains(source, "pytorch") {
      found := found + {PyTorch};
    }
  }

  /** The `if`/`elif` chain of `extract_model_info` on one code cell: a mentioned family replaces `modelType`. */
  method DetectModelType(source: string, modelType: Option<ModelKind>) returns (kind: Option<ModelKind>)
    ensures kind == if DetectKind(source).Some? then DetectKind(source) else modelType
  {
    kind := modelType;
    if Contains(source, "RandomForest") {
      kind := Some(RandomForest);
    } else if Contains(source, "LogisticRegression") {
      kind := Some(LogisticRegression);
    } else if Contains(source, "XGBoost") || Contains(source, "xgb") {
      kind := Some(XGBoost);
    } else if Contains(source, "Sequential") || Contains(source, "Model(") {
      kind := Some(NeuralNetwork);
    }
  }

  /** The names `extract_model_info` reports for the libraries are distinct. */
  lemma LibraryNamesDistinct()
    ensures forall a: Library, b: Library :: a.Name() == b.Name() ==> a == b
  {
    assert Sklearn.Name()[6] == 'n' && PyTorch.Name()[6] == 'h';
    assert |TensorFlow.Name()| == 10;
  }

  /** The names `extract_model_info` reports for the model families are distinct. */
  lemma KindNamesDistinct()
    ensures forall a: ModelKind, b: ModelKind :: a.Name() == b.Name() ==> a == b
  {
    assert RandomForest.Name()[21] == 'r' && NeuralNetwork.Name()[21] == ')';
    assert |LogisticRegression.Name()| == 18 && |XGBoost.Name()| == 7;
  }

  /** The dictionary `extract_model_info` returns: the family's display name, the feature list and the set of library names. */
  datatype InfoDict = InfoDict(modelType: Option<string>, features: seq<string>, libraries: set<string>)

  /** The findings as the dictionary of strings the analyser returns; the names pin down the findings. */
  function AsDict(info: ModelInfo): (d: InfoDict)
    ensures d.modelType.None? <==> info.modelType.None?
    ensures info.modelType.Some? ==> d.modelType == Some(info.modelType.value.Name())
    ensures forall k: ModelKind :: d.modelType == Some(k.Name()) <==> info.modelType == Some(k)
    ensures d.features == info.features
    ensures forall lib: Library :: lib.Name() in d.libraries <==> lib in info.libraries
    ensures forall n :: n in d.libraries ==> exists lib: Library :: lib in info.libraries && n == lib.Name()
  {
    LibraryNamesDistinct();
    KindNamesDistinct();
    InfoDict(
      if info.modelType.Some? then Some(info.modelType.value.Name()) else None,
      info.features,
      set lib | lib in info.libraries :: lib.Name())
  }

  /** What `extract_model_info` returns for a parsed notebook; `None` where it returns `None`. */
  function Extracted(notebook: Value): Option<InfoDict> {
    match NotebookCells(notebook)
    case None => None
    case Some(cells) =>
      match Analyze(cells)
      case None => None
      case Some(info) => Some(AsDict(info))
  }

  /**
   * What the returned dictionary says about the notebook: a library's name is
   * listed iff some code cell mentions it, a family is named iff some code cell
   * mentions one, and the feature list is empty.
   */
  lemma ReportedNames(notebook: Value, cells: seq<Value>, lib: Library)
    requires NotebookCells(notebook) == Some(cells) && Extracted(notebook).Some?
    ensures lib.Name() in Extracted(notebook).value.libraries <==> exists i :: 0 <= i < |cells| && CodeMentions(cells[i], lib)
    ensures Extracted(notebook).value.modelType.None? <==> forall i :: 0 <= i < |cells| ==> !Decides(cells[i])
    ensures Extracted(notebook).value.features == []
  {
    LibrariesFound(cells, lib);
    ModelTypeFromLastMatch(cells);
    AnalyzeFails(cells);
  }

  /**
   * `extract_model_info`: scan every code cell, adding the libraries it
   * mentions and overwriting the model family on each match, then report the
   * names found. `None` where the function returns `None`.
   */
  method ExtractModelInfo(notebook: Value) returns (info: Option<InfoDict>)
    ensures info == Extracted(notebook)
  {
    var entries := NotebookCells(notebook);
    if entries.None? {
      return None;
    }
    var found := ScanCells(entries.value);
    if found.None? {
      return None;
    }
    info := Some(AsDict(found.value));
  }

  /** Scanning one more cell merges its findings into what the earlier cells gave. */
  lemma AnalyzeStep(cells: seq<Value>, i: nat)
    requires i < |cells|
    ensures Analyze(cells[..i + 1]) == Merge(Analyze(cells[..i]), Findings(cells[i]))
  {
    GatherSnoc(cells[..i], cells[i], Findings);
    assert cells[..i + 1] == cells[..i] + [cells[i]];
  }

  /** The scanning loop of `extract_model_info` over the notebook's cells. */
  method ScanCells(cells: seq<Value>) returns (info: Option<ModelInfo>)
    ensures info == Analyze(cells)
  {
    var modelType: Option<ModelKind> := None;
    var libraries: set<Library> := {};
    var i := 0;
    while i < |cells|
      invariant 0 <= i <= |cells|
      invariant Analyze(cells[..i]) == Some(ModelInfo(modelType, [], libraries))
    {
      AnalyzeStep(cells, i);
      match ReadForAnalysis(cells[i]) {
        case Broken =>
          AnalyzeFails(cells);
          return None;
        case NotCode =>
          assert libraries + {} == libraries;
        case Code(source) =>
          libraries := DetectLibraries(source, libraries);
          modelType := DetectModelType(source, modelType);
      }
      i := i + 1;
    }
    assert cells[..i] == cells;
    info := Some(ModelInfo(modelType, [], libraries));
  }
}
