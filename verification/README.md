# Frame nodes of the SystemDS Python graph builder

SystemDS's Python API does not compute when a user calls an operation on a
`Frame`: it builds a node of a lazy expression graph, and the graph is later
lowered to a DML script and run on the engine. This project models the Frame
node (`src/main/python/systemds/operator/nodes/frame.py`):

- the constructor, which marks a frame as local exactly when it is given a
  pandas table, and `compute` and `code_line`, which treat such a frame
  specially;
- every graph-building call on a frame (`to_frame`, `rbind`, `cbind`,
  `replace`, `to_string`, `nRow`, `nCol`, `transform_apply`,
  `transform_encode`) and the node each returns;
- subscript access (`__getitem__`): the cascade of cases in the order the
  code tries them, the exceptions it raises, and the lowering of a row or
  column list to a `table` matrix and a `removeEmpty` frame.

Modules:

- `Graph` (graph.dfy) is the base node. An existing node is an object
  (`Node`) with a mutable list of unnamed operands, because `transform_encode`
  patches it after construction. A node that a call is about to create is a
  value (`Term`). A node that the call creates only to use as an operand has no
  other reference, so it appears inside the `Term` as a `Built` sub-term (the
  `nRow(self)` and the `table` matrix of a subscript, say). Two invariants are
  stated for any `Term`. `WellFormed`: a bracket node has the empty operation
  and the operands `[base, slice]`; any other node names its operation.
  `TermRefs`: the set of existing nodes the new node points at.
- `ScriptText` (script_text.dfy) holds the text-level pieces: how the
  `{file_name}` format field is filled, and how a single-quoted literal reads
  back.
- `Frames` (frames.dfy) is frame.py. The pure calls are functions that return
  the `Term` of the new node. Nothing they do can change `self`. The two calls
  that allocate and update objects are methods: the constructor and
  `transform_encode`.

Every graph-building function states three things: the node's variant,
operation and operands; that the node is well-formed; and the exact set of
existing nodes it refers to. The last one is always the receiver and the
arguments, so a new node never points at anything newer than itself. The
graph stays acyclic, except for the back-patch of a MultiReturn's outputs.

Points where the code's behaviour is easy to misread (the model follows the code):

- A 0-tuple, or a 1-tuple whose component is a list or an empty slice, makes
  the code index `i[0]` or `i[1]` out of range and raise `IndexError`. The
  model reports this as `MissingComponent`. A 1-tuple whose component is
  neither takes the bracket path.
- Any other subscript with at most two components, other than the short
  tuples above, a list, a pair of lists or an empty-slice/list pair, takes the
  bracket path. That includes an integer, and a 2-tuple whose second component
  is not a list even when the first is. A tuple with more than two components
  raises `ValueError` first.
- For the column case the negative check comes after the double-list check.
  So `(list, list)` raises `NotImplementedError` even when a list holds a
  negative index.
- `replace` quotes its two strings without escaping any character in them.

## Model

| member | source | states |
|---|---|---|
| Frames.NewFrame | src/main/python/systemds/operator/nodes/frame.py:57-81 | the new frame holds exactly the given operation, operands and bracket flag; it is local exactly when a table is supplied, stores that table, and its computation returns that table |
| Frames.IsPandas | src/main/python/systemds/operator/nodes/frame.py:118-119 | for a node built by the constructor, "has a pandas table" coincides with the node's local flag |
| Frames.Compute | src/main/python/systemds/operator/nodes/frame.py:105-110 | the engine is bypassed exactly when the frame holds a table, and then the result is that table unchanged; otherwise verbose and lineage go to the engine |
| Frames.CodeLine | src/main/python/systemds/operator/nodes/frame.py:94-103 | a non-local frame's statement is the base statement; a local frame's has each `{file_name}` replaced by the variable name; a base statement without the field is unchanged either way |
| ScriptText.FillWithoutPlaceholder | src/main/python/systemds/operator/nodes/frame.py:102 | filling a statement that holds no `{file_name}` field leaves it unchanged |
| ScriptText.FillCopiesPlainPrefix | src/main/python/systemds/operator/nodes/frame.py:102 | text before the first `{` is copied to the filled statement unchanged |
| ScriptText.FillReplacesPlaceholder | src/main/python/systemds/operator/nodes/frame.py:102 | a `{file_name}` field after plain text becomes the variable name, and the rest is filled the same way |
| ScriptText.FillWithPlaceholder | src/main/python/systemds/operator/nodes/frame.py:102 | filling with the field's own text is the identity |
| Frames.ToFrame | src/main/python/systemds/operator/nodes/frame.py:47-48 | `to_frame` on any node gives a well-formed `as.frame` Frame whose only operand, and only reference, is that node |
| Frames.Rbind | src/main/python/systemds/operator/nodes/frame.py:144-151 | an `rbind` Frame over exactly `[self, other]`, no named operands, well-formed, referring to `self` and `other` only |
| Frames.Cbind | src/main/python/systemds/operator/nodes/frame.py:153-159 | a `cbind` Frame over exactly `[self, other]`, no named operands, well-formed, referring to `self` and `other` only |
| Frames.Replace | src/main/python/systemds/operator/nodes/frame.py:161-176 | a `replace` Frame with named operands target, pattern and replacement only; pattern and replacement are the arguments wrapped in single quotes with nothing escaped; each quoted string reads back as the argument exactly when the argument holds no single quote |
| ScriptText.Quote | src/main/python/systemds/operator/nodes/frame.py:173-174 | the argument between two single quotes, with nothing added or escaped |
| ScriptText.QuoteRoundTrip | src/main/python/systemds/operator/nodes/frame.py:173-174 | a quoted string reads back as a single literal equal to the original exactly when the original holds no single quote |
| ScriptText.QuoteClosesEarly | src/main/python/systemds/operator/nodes/frame.py:173-174 | a single quote inside the argument closes the literal at that quote, before the closing quote that was added |
| Frames.ToString | src/main/python/systemds/operator/nodes/frame.py:178-182 | a `toString` Scalar over `[self]` whose named operands are the keyword arguments; it is well-formed exactly when they are, and refers to `self` and what they refer to |
| Frames.NRow | src/main/python/systemds/operator/nodes/frame.py:187-188 | an `nrow` Scalar whose sole operand and only reference is `self` |
| Frames.NCol | src/main/python/systemds/operator/nodes/frame.py:190-191 | an `ncol` Scalar whose sole operand and only reference is `self` |
| Frames.TransformApply | src/main/python/systemds/operator/nodes/frame.py:140-142 | a `transformapply` Matrix with no unnamed operands and named operands exactly target, spec and meta |
| Frames.TransformEncode | src/main/python/systemds/operator/nodes/frame.py:121-138 | one fresh `transformencode` MultiReturn with named operands target and spec, owning a fresh Matrix and a fresh Frame in that order; afterwards each output's unnamed operands are exactly `[op]` |
| Frames.SelectBy | src/main/python/systemds/operator/nodes/frame.py:198-205 | the list lowering: a `removeEmpty` Frame with no unnamed operands, target `self`, the given margin, and as select a `table` Matrix over `[list+1, 1, extent, 1]`; well-formed and referring only to `self` and the extent's references |
| Frames.GetItem | src/main/python/systemds/operator/nodes/frame.py:193-226 | exact conditions for each outcome: `ValueError` for more than two components; `NotImplementedError` for a list on both axes; `IndexError` for a short tuple; the negative-index `ValueError` for a row list, or an empty-slice/column-list pair, holding a negative; a rows lowering over `nRow(self)` exactly for a non-negative row list; a cols lowering over `nCol(self)` exactly for a non-negative column list; otherwise a bracket frame `[self, slice string]` with the empty operation. Every result is a well-formed Frame that refers to `self` only |

## Left out

- `pass_python_data_to_prepared_script` (frame.py:83-92) is left out. It hands the table to the JVM through py4j. Its only guard is that the node is local, which `IsPandas` states.
- `_parse_output_result_variables` (frame.py:112-116) is left out. It is a foreign conversion from a JVM frame block to pandas.
- The base `OperationNode` is not part of this model. Its `compute` appears only as the `Engine` outcome. Its `code_line` rendering is the `baseLine` parameter of `CodeLine`.
- `multi_return.py` is not part of this model. A MultiReturn is assumed to start with no unnamed operands and to keep the list of outputs it is given.
- `str.format` is modelled only for the `{file_name}` field. The effect of `{{`, `}}` and other fields is not modelled.
- `check_is_empty_slice` and `get_slice_string` are not part of this model. They enter `GetItem` as the function-valued parameter `SliceHelpers`.
- Frames.GetItem: assumes `check_is_empty_slice` and `get_slice_string` always succeed, returning a boolean and a text. An exception either helper raises would propagate out of `__getitem__`; the model does not capture that outcome.
- `check_no_less_than_zero` is modelled as "raises a ValueError when some element is negative". Its message is not modelled.
- `sds_context.from_numpy(np.array(list)) + 1` is the opaque operand `OneBased(list)`. The upload and the `+` node it builds live outside frame.py.
- The SystemDS context that every node carries is not modelled. All nodes share one.
- Python subscripts are modelled as lists of integers, tuples, slices and single integers. Lists of other element types, and other subscript objects, are not modelled.
- `Unquote` reads a literal without escape sequences. How DML treats a backslash inside the quotes is not modelled.
- Logging (frame.py:107) is left out, and so is `__str__` (frame.py:184-185).
- Script generation, remote execution and result conversion are left out. They belong to the base node and the bridge, which are not part of this model.
