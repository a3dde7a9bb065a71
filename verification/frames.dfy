/**
 * The Frame node of the lazy graph: construction with optional local data,
 * its statement and its short-circuited computation, and the graph-building
 * calls, each of which describes a new node and changes nothing.
 */
module Frames {
  import opened Wrappers
  import opened Graph
  import opened ScriptText

  // ---------------------------------------------------------------------
  // Construction, local data, code_line, compute
  // ---------------------------------------------------------------------

  /** `Frame(ctx, operation, unnamed, named, local_data, brackets)`. */
  method NewFrame(
    operation: string, unnamed: seq<Operand>, named: map<string, Operand>,
    localData: Option<DataFrame>, brackets: bool)
    returns (f: Node)
    ensures fresh(f) && f.Valid()
    ensures f.kind == Frame && f.operation == operation && f.brackets == brackets
    ensures f.unnamed == unnamed && f.named == named && f.outputs == []
    ensures f.isLocal <==> localData.Some?
    ensures f.localData == localData
    ensures localData.Some? ==> Compute(f, false, false) == NoCompilation(localData.value)
  {
    var isLocal := false;
    if localData.Some? {
      isLocal := true;
    }
    f := new Node.Init(Frame, operation, unnamed, named, isLocal, localData, brackets);
  }

  /** `_is_pandas`: the frame carries a table. */
  predicate IsPandas(self: Node)
    reads self
    ensures self.Valid() ==> (IsPandas(self) <==> self.isLocal)
  {
    self.localData.Some?
  }

  /** The two ways `compute` can go: return the attached table, or run the script on the engine. */
  datatype Computation =
    | NoCompilation(data: DataFrame)
    | Engine(verbose: bool, lineage: bool)

  /** `compute(verbose, lineage)`: a local frame is its own result; any other goes to the engine. */
  function Compute(self: Node, verbose: bool, lineage: bool): (r: Computation)
    reads self
    ensures r.NoCompilation? <==> IsPandas(self)
    ensures r.NoCompilation? ==> Some(r.data) == self.localData
    ensures r.Engine? ==> r.verbose == verbose && r.lineage == lineage
  {
    if IsPandas(self) then NoCompilation(self.localData.value)
    else Engine(verbose, lineage)
  }

  /**
   * `code_line(var_name, ...)`: `baseLine` is the statement the base node
   * renders; a local frame fills its `{file_name}` field with its own name.
   */
  function CodeLine(self: Node, varName: string, baseLine: string): (line: string)
    reads self
    ensures !IsPandas(self) ==> line == baseLine
    ensures IsPandas(self) ==> line == Fill(baseLine, varName)
    ensures !Mentions(baseLine) ==> line == baseLine
    ensures forall prefix, rest :: '{' !in prefix && baseLine == prefix + Placeholder + rest && IsPandas(self) ==>
      line == prefix + varName + Fill(rest, varName)
  {
    forall prefix, rest | '{' !in prefix && baseLine == prefix + Placeholder + rest
      ensures Fill(baseLine, varName) == prefix + varName + Fill(rest, varName)
    {
      FillReplacesPlaceholder(prefix, rest, varName);
    }
    assert !Mentions(baseLine) ==> Fill(baseLine, varName) == baseLine by {
      if !Mentions(baseLine) {
        FillWithoutPlaceholder(baseLine, varName);
      }
    }
    if IsPandas(self) then Fill(baseLine, varName) else baseLine
  }

  // ---------------------------------------------------------------------
  // Graph-building calls
  // ---------------------------------------------------------------------

  /** `to_frame()`, available on every node: an `as.frame` Frame over the node. */
  function ToFrame(self: Node): (t: Term)
    ensures t.kind == Frame && t.operation == "as.frame" && !t.brackets
    ensures t.unnamed == [Ref(self)] && t.named == map[]
    ensures WellFormed(t) && TermRefs(t) == {self}
  {
    var t := Term(Frame, "as.frame", [Ref(self)], map[], false);
    SeqRefsOne(Ref(self));
    UnnamedRefs(t);
    t
  }

  /** A row or column concatenation of two frames. */
  function Bind(operation: string, self: Node, other: Node): (t: Term)
    requires operation != ""
    ensures t.kind == Frame && t.operation == operation && !t.brackets
    ensures t.unnamed == [Ref(self), Ref(other)] && t.named == map[]
    ensures WellFormed(t) && TermRefs(t) == {self, other}
  {
    var t := Term(Frame, operation, [Ref(self), Ref(other)], map[], false);
    SeqRefsPair(Ref(self), Ref(other));
    UnnamedRefs(t);
    t
  }

  /** `rbind(other)`: the rows of `other` below those of `self`. */
  function Rbind(self: Node, other: Node): (t: Term)
    ensures t.kind == Frame && t.operation == "rbind" && !t.brackets
    ensures t.unnamed == [Ref(self), Ref(other)] && t.named == map[]
    ensures WellFormed(t) && TermRefs(t) == {self, other}
  {
    Bind("rbind", self, other)
  }

  /** `cbind(other)`: the columns of `other` right of those of `self`. */
  function Cbind(self: Node, other: Node): (t: Term)
    ensures t.kind == Frame && t.operation == "cbind" && !t.brackets
    ensures t.unnamed == [Ref(self), Ref(other)] && t.named == map[]
    ensures WellFormed(t) && TermRefs(t) == {self, other}
  {
    Bind("cbind", self, other)
  }

  /**
   * `replace(pattern, replacement)`: both strings are wrapped in single
   * quotes, unescaped, so each reads back as itself exactly when it holds no
   * single quote.
   */
  function Replace(self: Node, pattern: string, replacement: string): (t: Term)
    ensures t.kind == Frame && t.operation == "replace" && !t.brackets && t.unnamed == []
    ensures t.named.Keys == {"target", "pattern", "replacement"} && t.named["target"] == Ref(self)
    ensures t.named["pattern"] == Text(Quote(pattern)) && t.named["replacement"] == Text(Quote(replacement))
    ensures Unquote(t.named["pattern"].text) == Some(pattern) <==> '\'' !in pattern
    ensures Unquote(t.named["replacement"].text) == Some(replacement) <==> '\'' !in replacement
    ensures WellFormed(t) && TermRefs(t) == {self}
  {
    QuoteRoundTrip(pattern);
    QuoteRoundTrip(replacement);
    var t := Term(Frame, "replace", [],
      map["target" := Ref(self), "pattern" := Text(Quote(pattern)), "replacement" := Text(Quote(replacement))],
      false);
    assert self in OperandRefs(t.named["target"]);
    t
  }

  /** `to_string(**kwargs)`: a `toString` Scalar over the frame, the keyword arguments as named operands. */
  function ToString(self: Node, options: map<string, Operand>): (t: Term)
    ensures t.kind == Scalar && t.operation == "toString" && !t.brackets
    ensures t.unnamed == [Ref(self)] && t.named == options
    ensures WellFormed(t) <==> forall key <- options :: OperandWellFormed(options[key])
    ensures TermRefs(t) == {self} + NamedRefs(options)
  {
    var t := Term(Scalar, "toString", [Ref(self)], options, false);
    SeqRefsOne(Ref(self));
    TermRefsSplit(t);
    t
  }

  /** `nRow()`: an `nrow` Scalar over the frame. */
  function NRow(self: Node): (t: Term)
    ensures t.kind == Scalar && t.operation == "nrow" && !t.brackets
    ensures t.unnamed == [Ref(self)] && t.named == map[]
    ensures WellFormed(t) && TermRefs(t) == {self}
  {
    var t := Term(Scalar, "nrow", [Ref(self)], map[], false);
    SeqRefsOne(Ref(self));
    UnnamedRefs(t);
    t
  }

  /** `nCol()`: an `ncol` Scalar over the frame. */
  function NCol(self: Node): (t: Term)
    ensures t.kind == Scalar && t.operation == "ncol" && !t.brackets
    ensures t.unnamed == [Ref(self)] && t.named == map[]
    ensures WellFormed(t) && TermRefs(t) == {self}
  {
    var t := Term(Scalar, "ncol", [Ref(self)], map[], false);
    SeqRefsOne(Ref(self));
    UnnamedRefs(t);
    t
  }

  /** `transform_apply(spec, meta)`: a `transformapply` Matrix with named operands only. */
  function TransformApply(self: Node, spec: Node, meta: Node): (t: Term)
    ensures t.kind == Matrix && t.operation == "transformapply" && !t.brackets && t.unnamed == []
    ensures t.named == map["target" := Ref(self), "spec" := Ref(spec), "meta" := Ref(meta)]
    ensures WellFormed(t) && TermRefs(t) == {self, spec, meta}
  {
    var t := Term(Matrix, "transformapply", [],
      map["target" := Ref(self), "spec" := Ref(spec), "meta" := Ref(meta)], false);
    assert self in OperandRefs(t.named["target"]);
    assert spec in OperandRefs(t.named["spec"]);
    assert meta in OperandRefs(t.named["meta"]);
    t
  }

  // ---------------------------------------------------------------------
  // Subscript lowering: __getitem__
  // ---------------------------------------------------------------------

  /** A Python subscript expression. */
  datatype Index =
    | IntList(items: seq<int>)                                       // a list of integers
    | Tuple(parts: seq<Index>)                                       // a tuple of components
    | Slice(start: Option<int>, stop: Option<int>, step: Option<int>)  // a slice
    | Position(k: int)                                               // a single integer

  /** The exceptions a subscript can raise. */
  datatype Raised =
    | TooManyDimensions  // ValueError: "Maximum of two dimensions are allowed"
    | NegativeIndex      // the ValueError of check_no_less_than_zero
    | DoubleSlicing      // NotImplementedError: "double slicing is not supported yet"
    | MissingComponent   // IndexError: `i[0]` or `i[1]` of a tuple that is too short

  /**
   * The helpers frame.py imports for slices, which are not part of this
   * model: `check_is_empty_slice` and `get_slice_string`.
   */
  datatype SliceHelpers = SliceHelpers(isEmptySlice: Index -> bool, sliceString: Index -> string)

  /** The check `check_no_less_than_zero` lets the list through. */
  predicate NoNegative(items: seq<int>)
  {
    forall k :: 0 <= k < |items| ==> items[k] >= 0
  }

  const RowsMargin: string := "\"rows\""
  const ColsMargin: string := "\"cols\""

  /**
   * The lowering of a list subscript on one axis: a `table` Matrix that marks
   * the selected positions, among `extent` of them, and a `removeEmpty` Frame
   * that keeps the marked rows or columns of `self`.
   */
  function SelectBy(self: Node, items: seq<int>, margin: string, extent: Term): (t: Term)
    requires WellFormed(extent)
    ensures t.kind == Frame && t.operation == "removeEmpty" && !t.brackets && t.unnamed == []
    ensures t.named.Keys == {"target", "margin", "select"}
    ensures t.named["target"] == Ref(self) && t.named["margin"] == Text(margin)
    ensures t.named["select"] == Built(Term(Matrix, "table", [OneBased(items), IntLit(1), Built(extent), IntLit(1)], map[], false))
    ensures WellFormed(t) && TermRefs(t) == {self} + TermRefs(extent)
  {
    var select := Term(Matrix, "table", [OneBased(items), IntLit(1), Built(extent), IntLit(1)], map[], false);
    var t := Term(Frame, "removeEmpty", [],
      map["target" := Ref(self), "margin" := Text(margin), "select" := Built(select)], false);
    assert select.unnamed[1..] == [IntLit(1), Built(extent), IntLit(1)];
    assert select.unnamed[1..][1..] == [Built(extent), IntLit(1)];
    SeqRefsPair(Built(extent), IntLit(1));
    UnnamedRefs(select);
    assert OperandWellFormed(Built(extent));
    assert WellFormed(select);
    assert self in OperandRefs(t.named["target"]);
    assert forall n <- TermRefs(extent) :: n in OperandRefs(t.named["select"]);
    t
  }

  /** The tuple `(empty slice, list)` that selects columns. */
  predicate ColumnList(i: Index, h: SliceHelpers)
  {
    i.Tuple? && |i.parts| == 2 && !i.parts[0].IntList? && h.isEmptySlice(i.parts[0]) && i.parts[1].IntList?
  }

  /**
   * The subscripts that fall through to bracket syntax: a slice or an integer;
   * a 1-tuple whose component is neither a list nor an empty slice; a 2-tuple
   * whose second component is not a list, or whose first is neither a list
   * nor an empty slice.
   */
  predicate PlainSubscript(i: Index, h: SliceHelpers)
  {
    match i
    case IntList(_) => false
    case Tuple(parts) =>
      (|parts| == 1 && !parts[0].IntList? && !h.isEmptySlice(parts[0])) ||
      (|parts| == 2 && (!parts[1].IntList? || (!parts[0].IntList? && !h.isEmptySlice(parts[0]))))
    case _ => true
  }

  /**
   * `self[i]`. The cases are tried in the order of the source: more than two
   * components; a row list; a list on both axes; an empty slice and a column
   * list; anything else becomes `self[slice]` in bracket syntax.
   */
  function GetItem(self: Node, i: Index, h: SliceHelpers): (r: Result<Term, Raised>)
    ensures r == Failure(TooManyDimensions) <==> i.Tuple? && |i.parts| > 2
    ensures r == Failure(DoubleSlicing) <==>
      i.Tuple? && |i.parts| == 2 && i.parts[0].IntList? && i.parts[1].IntList?
    ensures r == Failure(MissingComponent) <==>
      i.Tuple? && (|i.parts| == 0 || (|i.parts| == 1 && (i.parts[0].IntList? || h.isEmptySlice(i.parts[0]))))
    ensures r == Failure(NegativeIndex) <==>
      (i.IntList? && !NoNegative(i.items)) || (ColumnList(i, h) && !NoNegative(i.parts[1].items))
    ensures r.Success? && "margin" in r.value.named && r.value.named["margin"] == Text(RowsMargin) <==>
      i.IntList? && NoNegative(i.items)
    ensures i.IntList? && NoNegative(i.items) ==>
      r == Success(SelectBy(self, i.items, RowsMargin, NRow(self)))
    ensures r.Success? && "margin" in r.value.named && r.value.named["margin"] == Text(ColsMargin) <==>
      ColumnList(i, h) && NoNegative(i.parts[1].items)
    ensures ColumnList(i, h) && NoNegative(i.parts[1].items) ==>
      r == Success(SelectBy(self, i.parts[1].items, ColsMargin, NCol(self)))
    ensures r.Success? && r.value.brackets <==>
      r == Success(Term(Frame, "", [Ref(self), Text(h.sliceString(i))], map[], true))
    ensures r.Success? && r.value.brackets <==> PlainSubscript(i, h)
    ensures r.Success? ==> r.value.kind == Frame && WellFormed(r.value) && TermRefs(r.value) == {self}
  {
    if i.Tuple? && |i.parts| > 2 then
      Failure(TooManyDimensions)
    else if i.IntList? then
      if !NoNegative(i.items) then Failure(NegativeIndex)
      else Success(SelectBy(self, i.items, RowsMargin, NRow(self)))
    else if i.Tuple? && |i.parts| == 0 then
      Failure(MissingComponent)
    else if i.Tuple? && i.parts[0].IntList? && |i.parts| == 1 then
      Failure(MissingComponent)
    else if i.Tuple? && i.parts[0].IntList? && i.parts[1].IntList? then
      Failure(DoubleSlicing)
    else if i.Tuple? && h.isEmptySlice(i.parts[0]) && |i.parts| == 1 then
      Failure(MissingComponent)
    else if i.Tuple? && h.isEmptySlice(i.parts[0]) && i.parts[1].IntList? then
      if !NoNegative(i.parts[1].items) then Failure(NegativeIndex)
      else Success(SelectBy(self, i.parts[1].items, ColsMargin, NCol(self)))
    else
      var t := Term(Frame, "", [Ref(self), Text(h.sliceString(i))], map[], true);
      SeqRefsPair(Ref(self), Text(h.sliceString(i)));
      UnnamedRefs(t);
      Success(t)
  }

  /**
   * `transform_encode(spec)`: one `transformencode` MultiReturn owning a
   * fresh Matrix and a fresh Frame, in that order; each output is then
   * patched to have the MultiReturn as its sole unnamed operand.
   */
  method TransformEncode(self: Node, spec: Node) returns (op: Node)
    ensures fresh(op) && op.kind == MultiReturn && op.operation == "transformencode"
    ensures op.unnamed == [] && op.named == map["target" := Ref(self), "spec" := Ref(spec)]
    ensures !op.isLocal && op.localData == None && !op.brackets && op.Valid()
    ensures |op.outputs| == 2 && op.outputs[0].kind == Matrix && op.outputs[1].kind == Frame
    ensures fresh(op.outputs[0]) && fresh(op.outputs[1]) && op.outputs[0] != op.outputs[1]
    ensures forall k :: 0 <= k < 2 ==>
      op.outputs[k].operation == "" && op.outputs[k].named == map[] && !op.outputs[k].brackets &&
      !op.outputs[k].isLocal && op.outputs[k].Valid() && op.outputs[k].outputs == []
    ensures OwnsOutputs(op)
  {
    var frame := NewFrame("", [], map[], None, false);
    var matrix := new Node.Init(Matrix, "", [], map[], false, None, false);
    op := new Node.InitMultiReturn("transformencode", [matrix, frame],
      map["target" := Ref(self), "spec" := Ref(spec)]);
    frame.unnamed := [Ref(op)];
    matrix.unnamed := [Ref(op)];
  }
}
