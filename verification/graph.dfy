/**
 * The base of the lazy expression graph: an operation node with its ordered
 * unnamed operands and its named operands, and the typed variants Frame,
 * Matrix, Scalar and MultiReturn that share it.
 *
 * A node that already exists is an object (`Node`): the graph refers to it by
 * identity. A node that a graph-building call is about to create is described
 * by a value (`Term`); the nodes that such a call creates only to use them as
 * operands of its result (the `nRow(self)` inside a subscript, say) have no
 * other reference and appear as `Built` sub-terms.
 */
module Graph {
  import opened Wrappers

  /** The typed variants of a node. */
  datatype Kind = Frame | Matrix | Scalar | MultiReturn

  /** A host-side table (a pandas DataFrame) held by a node until the engine needs it. */
  datatype DataFrame = DataFrame(columns: seq<string>, rows: seq<seq<string>>)

  /** One operand of a node. */
  datatype Operand =
    | Ref(node: Node)              // an existing node, by identity
    | Built(term: Term)            // a node created by the same call, owned by this operand
    | Text(text: string)           // a Python string, pasted verbatim into the script
    | IntLit(value: int)           // a Python integer literal
    | OneBased(indices: seq<int>)  // `from_numpy(np.array(indices)) + 1`: the indices uploaded as a matrix, shifted to 1-based

  /** The description of a node to be created: variant, operation, operands, bracket syntax. */
  datatype Term = Term(
    kind: Kind,
    operation: string,
    unnamed: seq<Operand>,
    named: map<string, Operand>,
    brackets: bool)

  /** The nodes of the graph that an operand refers to, directly or through built sub-terms. */
  function OperandRefs(o: Operand): set<Node>
    decreases o, 1
  {
    match o
    case Ref(n) => {n}
    case Built(t) => TermRefs(t)
    case _ => {}
  }

  function SeqRefs(os: seq<Operand>): set<Node>
    decreases os, 0
  {
    if os == [] then {} else OperandRefs(os[0]) + SeqRefs(os[1..])
  }

  /** The existing nodes a term refers to: its unnamed and its named operands'. */
  function TermRefs(t: Term): set<Node>
    decreases t, 2
  {
    SeqRefs(t.unnamed) + (set key, n | key in t.named && n in OperandRefs(t.named[key]) :: n)
  }

  /** The existing nodes a set of named operands refers to. */
  function NamedRefs(named: map<string, Operand>): set<Node>
  {
    set key, n | key in named && n in OperandRefs(named[key]) :: n
  }

  lemma TermRefsSplit(t: Term)
    ensures TermRefs(t) == SeqRefs(t.unnamed) + NamedRefs(t.named)
  {
  }

  /** A single operand refers to what that operand refers to. */
  lemma SeqRefsOne(a: Operand)
    ensures SeqRefs([a]) == OperandRefs(a)
  {
    assert [a][1..] == [];
  }

  /** Two operands refer to what either of them refers to. */
  lemma SeqRefsPair(a: Operand, b: Operand)
    ensures SeqRefs([a, b]) == OperandRefs(a) + OperandRefs(b)
  {
    assert [a, b][1..] == [b];
    SeqRefsOne(b);
  }

  /** A term without named operands refers to what its unnamed operands refer to. */
  lemma UnnamedRefs(t: Term)
    requires t.named == map[]
    ensures TermRefs(t) == SeqRefs(t.unnamed)
  {
  }

  /**
   * The shape every node built by a graph-building call has: a bracket node
   * has the empty operation, no named operands and exactly the operands
   * `[base, slice]`; any other node names its operation; built sub-terms are
   * well-formed too.
   */
  predicate WellFormed(t: Term)
    decreases t, 1
  {
    (t.brackets ==> t.operation == "" && |t.unnamed| == 2 && t.named == map[]) &&
    (!t.brackets ==> t.operation != "") &&
    (forall o <- t.unnamed :: OperandWellFormed(o)) &&
    (forall key <- t.named :: OperandWellFormed(t.named[key]))
  }

  predicate OperandWellFormed(o: Operand)
    decreases o, 2
  {
    o.Built? ==> WellFormed(o.term)
  }

  /**
   * A node of the graph. `unnamed` is the one field updated after
   * construction: the outputs of a MultiReturn are patched to point at it.
   */
  class Node {
    const kind: Kind
    const operation: string
    var unnamed: seq<Operand>
    const named: map<string, Operand>
    const isLocal: bool              // the node holds host data instead of an operation
    const brackets: bool             // rendered as `base[slice]`
    const localData: Option<DataFrame>  // a Frame's attached table
    const outputs: seq<Node>         // a MultiReturn's output nodes, in order

    /** A node marks itself local exactly when it holds host data. */
    ghost predicate Valid()
      reads this
    {
      isLocal <==> localData.Some?
    }

    /** The base node constructor: it stores what it is given. */
    constructor Init(
      kind: Kind, operation: string, unnamed: seq<Operand>, named: map<string, Operand>,
      isLocal: bool, localData: Option<DataFrame>, brackets: bool)
      ensures this.kind == kind && this.operation == operation
      ensures this.unnamed == unnamed && this.named == named
      ensures this.isLocal == isLocal && this.localData == localData && this.brackets == brackets
      ensures outputs == []
    {
      this.kind := kind;
      this.operation := operation;
      this.unnamed := unnamed;
      this.named := named;
      this.isLocal := isLocal;
      this.localData := localData;
      this.brackets := brackets;
      this.outputs := [];
    }

    /** A MultiReturn node: one operation owning several output nodes. */
    constructor InitMultiReturn(operation: string, outputs: seq<Node>, named: map<string, Operand>)
      ensures kind == MultiReturn && this.operation == operation
      ensures unnamed == [] && this.named == named && this.outputs == outputs
      ensures !isLocal && localData == None && !brackets
      ensures Valid()
    {
      kind := MultiReturn;
      this.operation := operation;
      unnamed := [];
      this.named := named;
      isLocal := false;
      localData := None;
      brackets := false;
      this.outputs := outputs;
    }
  }

  /** Every output of the MultiReturn node `op` has `op` as its sole unnamed operand. */
  ghost predicate OwnsOutputs(op: Node)
    reads op, op.outputs
  {
    op.kind == MultiReturn &&
    forall k :: 0 <= k < |op.outputs| ==> op.outputs[k].unnamed == [Ref(op)]
  }
}
