/**
 * The structural analyzer: for every function definition in a parsed module,
 * its parameters, return type and branch points. Both loops walk the syntax
 * tree the way Python's ast.walk does: breadth first, from a queue.
 */
module CodeAnalysis {
  import opened Wrappers
  import opened Models

  /** A type annotation as the parser delivers it. */
  datatype Annotation =
    | NoAnnotation
    | NameAnnotation(id: string)
    | ConstantAnnotation(text: string)
    | OtherAnnotation(source: string)

  datatype Param = Param(name: string, annotation: Annotation)

  /**
   * Statements of a parsed module. Expressions hold no statements, so a
   * condition is kept as its source text. `Compound` stands for every other
   * statement with a body (class, loop, with, try): the walk passes through it.
   */
  datatype Stmt =
    | FunctionDef(name: string, params: seq<Param>, returnAnnotation: Annotation, body: seq<Stmt>, lineno: nat)
    | If(test: string, body: seq<Stmt>, orelse: seq<Stmt>, lineno: nat)
    | Compound(body: seq<Stmt>, lineno: nat)
    | Simple(lineno: nat)

  /** What the Python parser makes of a text: a module body, or a syntax error and its message. */
  datatype ParseOutcome = Parsed(body: seq<Stmt>) | Unparsable(message: string)

  /** The analysis of one file: an error entry, or the function records and their branch total. */
  datatype FileAnalysis = FileAnalysis(error: Option<string>, functions: seq<FunctionInfo>, totalBranchesInFile: nat)

  /** The statements directly nested in a statement, in the order the walk queues them. */
  function Children(s: Stmt): seq<Stmt>
  {
    match s
    case FunctionDef(_, _, _, body, _) => body
    case If(_, body, orelse, _) => body + orelse
    case Compound(body, _) => body
    case Simple(_) => []
  }

  function Size(s: Stmt): nat
    decreases s, 1
  {
    match s
    case FunctionDef(_, _, _, body, _) => 1 + SizeAll(body)
    case If(_, body, orelse, _) => 1 + SizeAll(body) + SizeAll(orelse)
    case Compound(body, _) => 1 + SizeAll(body)
    case Simple(_) => 1
  }

  function SizeAll(ss: seq<Stmt>): nat
    decreases ss, 0
  {
    if ss == [] then 0 else Size(ss[0]) + SizeAll(ss[1..])
  }

  lemma {:induction false} SizeAllAppend(a: seq<Stmt>, b: seq<Stmt>)
    ensures SizeAll(a + b) == SizeAll(a) + SizeAll(b)
  {
    if a != [] {
      assert (a + b)[0] == a[0] && (a + b)[1..] == a[1..] + b;
      SizeAllAppend(a[1..], b);
    } else {
      assert a + b == b;
    }
  }

  lemma SizeOfChildren(s: Stmt)
    ensures Size(s) == 1 + SizeAll(Children(s))
  {
    if s.If? {
      SizeAllAppend(s.body, s.orelse);
    }
  }

  /** The statements reachable from a queue, in the order ast.walk visits them: breadth first. */
  function Walk(queue: seq<Stmt>): seq<Stmt>
    decreases SizeAll(queue)
  {
    if queue == [] then []
    else
      SizeAllAppend(queue[1..], Children(queue[0]));
      SizeOfChildren(queue[0]);
      [queue[0]] + Walk(queue[1..] + Children(queue[0]))
  }

  /** One step of the walk: the head of the queue is visited, its children join the back of the queue. */
  lemma WalkStep<T>(f: Stmt -> seq<T>, queue: seq<Stmt>)
    requires queue != []
    ensures SizeAll(queue[1..] + Children(queue[0])) < SizeAll(queue)
    ensures FlatMap(f, Walk(queue)) == f(queue[0]) + FlatMap(f, Walk(queue[1..] + Children(queue[0])))
  {
    SizeAllAppend(queue[1..], Children(queue[0]));
    SizeOfChildren(queue[0]);
    var w := Walk(queue[1..] + Children(queue[0]));
    assert Walk(queue) == [queue[0]] + w;
    assert ([queue[0]] + w)[0] == queue[0] && ([queue[0]] + w)[1..] == w;
  }

  /**
   * Visiting the head of the queue keeps what is recorded so far, followed
   * by what is still to be walked, unchanged.
   */
  lemma WalkVisit<T>(f: Stmt -> seq<T>, done: seq<T>, queue: seq<Stmt>)
    requires queue != []
    ensures SizeAll(queue[1..] + Children(queue[0])) < SizeAll(queue)
    ensures (done + f(queue[0])) + FlatMap(f, Walk(queue[1..] + Children(queue[0]))) == done + FlatMap(f, Walk(queue))
  {
    WalkStep(f, queue);
  }

  /** The statements of a body in source order: each statement, then what it contains, then the rest. */
  function Preorder(ss: seq<Stmt>): seq<Stmt>
    decreases SizeAll(ss)
  {
    if ss == [] then []
    else
      SizeOfChildren(ss[0]);
      [ss[0]] + Preorder(Children(ss[0])) + Preorder(ss[1..])
  }

  function FlatMap<T>(f: Stmt -> seq<T>, ss: seq<Stmt>): seq<T>
  {
    if ss == [] then [] else f(ss[0]) + FlatMap(f, ss[1..])
  }

  lemma {:induction false} FlatMapAppend<T>(f: Stmt -> seq<T>, a: seq<Stmt>, b: seq<Stmt>)
    ensures FlatMap(f, a + b) == FlatMap(f, a) + FlatMap(f, b)
  {
    if a != [] {
      assert (a + b)[0] == a[0] && (a + b)[1..] == a[1..] + b;
      FlatMapAppend(f, a[1..], b);
    } else {
      assert a + b == b;
    }
  }

  lemma {:induction false} PreorderAppend(a: seq<Stmt>, b: seq<Stmt>)
    decreases SizeAll(a)
    ensures Preorder(a + b) == Preorder(a) + Preorder(b)
  {
    if a != [] {
      assert (a + b)[0] == a[0] && (a + b)[1..] == a[1..] + b;
      SizeOfChildren(a[0]);
      PreorderAppend(a[1..], b);
      assert Preorder(a + b) == [a[0]] + Preorder(Children(a[0])) + (Preorder(a[1..]) + Preorder(b));
    } else {
      assert a + b == b;
    }
  }

  /**
   * The breadth-first walk visits exactly the statements of the source-order
   * traversal, each once: whatever each statement contributes, the walk
   * collects the same records, only in another order.
   */
  lemma {:induction false} WalkIsPermutationOfSourceOrder<T>(f: Stmt -> seq<T>, queue: seq<Stmt>)
    decreases SizeAll(queue)
    ensures multiset(FlatMap(f, Walk(queue))) == multiset(FlatMap(f, Preorder(queue)))
  {
    if queue != [] {
      var head, rest, children := queue[0], queue[1..], Children(queue[0]);
      SizeAllAppend(rest, children);
      SizeOfChildren(head);
      WalkIsPermutationOfSourceOrder(f, rest + children);
      PreorderAppend(rest, children);
      FlatMapAppend(f, Preorder(rest), Preorder(children));
      FlatMapAppend(f, [head] + Preorder(children), Preorder(rest));
      FlatMapAppend(f, [head], Preorder(children));
      assert FlatMap(f, [head]) == f(head);
    }
  }

  /** Python's _get_annotation: no annotation reads "Any", a bare name its identifier, a constant its text, anything else its source. */
  function AnnotationText(a: Annotation): (t: string)
    ensures a.NoAnnotation? ==> t == "Any"
    ensures a.NameAnnotation? ==> t == a.id
    ensures a.ConstantAnnotation? ==> t == a.text
    ensures a.OtherAnnotation? ==> t == a.source
  {
    match a
    case NoAnnotation => "Any"
    case NameAnnotation(id) => id
    case ConstantAnnotation(text) => text
    case OtherAnnotation(source) => source
  }

  /** The `if` record of an If statement. */
  function IfRecord(s: Stmt): seq<BranchInfo>
  {
    if s.If? then [BranchInfo(s.lineno, IfBranch, Some(s.test))] else []
  }

  /** The `else` record of an If whose else-part is present and does not begin with another If. */
  function ElseRecord(s: Stmt): seq<BranchInfo>
  {
    if s.If? && s.orelse != [] && !s.orelse[0].If? then [BranchInfo(s.orelse[0].lineno, ElseBranch, None)] else []
  }

  /** The branch records one statement contributes to the function that contains it. */
  function BranchRecords(s: Stmt): seq<BranchInfo>
  {
    IfRecord(s) + ElseRecord(s)
  }

  /** The branch records of the subtree rooted at a statement, in walk order. */
  function BranchesOf(node: Stmt): seq<BranchInfo>
  {
    FlatMap(BranchRecords, Walk([node]))
  }

  function IfCount(bs: seq<BranchInfo>): nat
  {
    if bs == [] then 0 else (if bs[0].kind == IfBranch then 1 else 0) + IfCount(bs[1..])
  }

  lemma {:induction false} IfCountAppend(a: seq<BranchInfo>, b: seq<BranchInfo>)
    ensures IfCount(a + b) == IfCount(a) + IfCount(b)
  {
    if a != [] {
      assert (a + b)[0] == a[0] && (a + b)[1..] == a[1..] + b;
      IfCountAppend(a[1..], b);
    } else {
      assert a + b == b;
    }
  }

  function ArgsOf(params: seq<Param>): (args: seq<ArgInfo>)
    ensures |args| == |params|
  {
    seq(|params|, i requires 0 <= i < |params| => ArgInfo(params[i].name, AnnotationText(params[i].annotation)))
  }

  /** The record of one function definition. */
  function FunctionRecord(def: Stmt): FunctionInfo
    requires def.FunctionDef?
  {
    var branches := BranchesOf(def);
    FunctionInfo(def.name, ArgsOf(def.params), AnnotationText(def.returnAnnotation), branches,
                 1 + IfCount(branches), |branches|, def.lineno)
  }

  /** The records one statement contributes to the file analysis: one for a definition, none otherwise. */
  function FunctionRecords(s: Stmt): seq<FunctionInfo>
  {
    if s.FunctionDef? then [FunctionRecord(s)] else []
  }

  /** The sum of the branch totals of a list of function records. */
  function SumBranches(fs: seq<FunctionInfo>): nat
  {
    if fs == [] then 0 else SumBranches(fs[..|fs| - 1]) + fs[|fs| - 1].totalBranches
  }

  /** _detect_branches: the walk of the node's subtree, one `if` record per If and an `else` record where one is due. */
  method DetectBranches(node: Stmt) returns (branches: seq<BranchInfo>)
    ensures branches == BranchesOf(node)
  {
    branches := [];
    var queue := [node];
    while queue != []
      invariant branches + FlatMap(BranchRecords, Walk(queue)) == BranchesOf(node)
      decreases SizeAll(queue)
    {
      var child := queue[0];
      ghost var before := branches;
      WalkVisit(BranchRecords, before, queue);
      queue := queue[1..] + Children(child);
      if child.If? {
        branches := branches + [BranchInfo(child.lineno, IfBranch, Some(child.test))];
        if child.orelse != [] && !child.orelse[0].If? {
          branches := branches + [BranchInfo(child.orelse[0].lineno, ElseBranch, None)];
        }
      }
      assert branches == before + (IfRecord(child) + ElseRecord(child));
    }
    assert FlatMap(BranchRecords, Walk(queue)) == [];
  }

  /** _analyze_function: parameters with their types, return type, branches, complexity and branch total. */
  method AnalyzeFunction(def: Stmt) returns (info: FunctionInfo)
    requires def.FunctionDef?
    ensures info == FunctionRecord(def)
  {
    var args: seq<ArgInfo> := [];
    var i := 0;
    while i < |def.params|
      invariant 0 <= i <= |def.params|
      invariant args == ArgsOf(def.params)[..i]
    {
      args := args + [ArgInfo(def.params[i].name, AnnotationText(def.params[i].annotation))];
      i := i + 1;
    }
    var branches := DetectBranches(def);
    var complexity := 1 + IfCount(branches);
    info := FunctionInfo(def.name, args, AnnotationText(def.returnAnnotation), branches, complexity, |branches|, def.lineno);
  }

  /**
   * analyze_file: an unparsable text gives an error entry with no functions;
   * otherwise one record per function definition met by the walk, nested
   * ones included, and the sum of their branch totals.
   */
  method AnalyzeFile(parsed: ParseOutcome) returns (analysis: FileAnalysis)
    ensures parsed.Unparsable? ==> analysis == FileAnalysis(Some(parsed.message), [], 0)
    ensures parsed.Parsed? ==>
      && analysis.error == None
      && analysis.functions == FlatMap(FunctionRecords, Walk(parsed.body))
      && analysis.totalBranchesInFile == SumBranches(analysis.functions)
  {
    if parsed.Unparsable? {
      return FileAnalysis(Some(parsed.message), [], 0);
    }
    var functions: seq<FunctionInfo> := [];
    var total := 0;
    var queue := parsed.body;
    while queue != []
      invariant functions + FlatMap(FunctionRecords, Walk(queue)) == FlatMap(FunctionRecords, Walk(parsed.body))
      invariant total == SumBranches(functions)
      decreases SizeAll(queue)
    {
      var node := queue[0];
      ghost var before := functions;
      WalkVisit(FunctionRecords, before, queue);
      queue := queue[1..] + Children(node);
      if node.FunctionDef? {
        var info := AnalyzeFunction(node);
        assert (functions + [info])[..|functions|] == functions;
        functions := functions + [info];
        total := total + info.totalBranches;
      }
      assert functions == before + FunctionRecords(node);
    }
    assert FlatMap(FunctionRecords, Walk(queue)) == [];
    analysis := FileAnalysis(None, functions, total);
  }

  /** Every function definition of the module, nested or not, yields exactly one record. */
  lemma EveryDefinitionAnalyzedOnce(program: seq<Stmt>)
    ensures multiset(FlatMap(FunctionRecords, Walk(program))) == multiset(FlatMap(FunctionRecords, Preorder(program)))
  {
    WalkIsPermutationOfSourceOrder(FunctionRecords, program);
  }

  /**
   * The branch records of a function are those of its statements in source
   * order, each If giving its `if` record and, where due, its `else` record.
   */
  lemma BranchesAreThoseOfEveryIf(def: Stmt)
    ensures multiset(BranchesOf(def)) == multiset(FlatMap(BranchRecords, Preorder([def])))
  {
    WalkIsPermutationOfSourceOrder(BranchRecords, [def]);
  }

  /** Each statement gives at least as many records as `if` records, and at most twice as many. */
  lemma {:induction false} BranchCountBounds(ss: seq<Stmt>)
    ensures IfCount(FlatMap(BranchRecords, ss)) <= |FlatMap(BranchRecords, ss)| <= 2 * IfCount(FlatMap(BranchRecords, ss))
  {
    if ss != [] {
      BranchCountBounds(ss[1..]);
      IfCountAppend(BranchRecords(ss[0]), FlatMap(BranchRecords, ss[1..]));
      IfCountAppend(IfRecord(ss[0]), ElseRecord(ss[0]));
    }
  }

  /** complexity - 1 <= total_branches <= 2 * (complexity - 1) for every analyzed function. */
  lemma ComplexityBoundsBranches(def: Stmt)
    requires def.FunctionDef?
    ensures var info := FunctionRecord(def);
      info.cyclomaticComplexity - 1 <= info.totalBranches <= 2 * (info.cyclomaticComplexity - 1)
  {
    BranchCountBounds(Walk([def]));
  }

  /** A statement nested in a body brings all its source-order records into those of the body. */
  lemma {:induction false} NestedRecordsIncluded<T>(f: Stmt -> seq<T>, inner: Stmt, ss: seq<Stmt>)
    requires inner in Preorder(ss)
    decreases SizeAll(ss)
    ensures multiset(FlatMap(f, Preorder([inner]))) <= multiset(FlatMap(f, Preorder(ss)))
  {
    var head, rest := ss[0], ss[1..];
    SizeOfChildren(head);
    var below := Preorder(Children(head));
    assert Preorder(ss) == [head] + below + Preorder(rest);
    FlatMapAppend(f, [head] + below, Preorder(rest));
    FlatMapAppend(f, [head], below);
    if inner == head {
      assert Preorder([inner]) == [head] + below + Preorder([]);
      assert [head] + below + [] == [head] + below;
    } else if inner in below {
      NestedRecordsIncluded(f, inner, Children(head));
    } else {
      assert inner in Preorder(rest);
      NestedRecordsIncluded(f, inner, rest);
    }
  }

  /**
   * A function defined inside another is walked twice: its branch records
   * appear in its own record and again in the enclosing function's record.
   */
  lemma NestedBranchesCountedInBoth(outer: Stmt, inner: Stmt)
    requires outer.FunctionDef? && inner.FunctionDef? && inner in Preorder(outer.body)
    ensures multiset(FunctionRecord(inner).branches) <= multiset(FunctionRecord(outer).branches)
  {
    WalkIsPermutationOfSourceOrder(BranchRecords, [inner]);
    WalkIsPermutationOfSourceOrder(BranchRecords, [outer]);
    assert Preorder([outer]) == [outer] + Preorder(outer.body) + Preorder([]);
    NestedRecordsIncluded(BranchRecords, inner, [outer]);
  }
}
