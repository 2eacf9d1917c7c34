/** wfoprocessor.py: the pass over parsed statements that collects the material library files
    they name, in order. */
module Processor {
  import opened Lexer
  import opened Parser

  /** The material library data of the statements, in order. */
  function MaterialData(ss: seq<Statement>): (r: seq<StatementData>)
    ensures |r| <= |ss|
    decreases |ss|
  {
    if |ss| == 0 then []
    else MaterialData(ss[..|ss| - 1])
         + (if ss[|ss| - 1].kind == MaterialLibStatement then [ss[|ss| - 1].data] else [])
  }

  /** process_statements: every material library statement appends its data to the files;
      other statements are ignored. */
  method ProcessStatements(files: seq<StatementData>, ss: seq<Statement>) returns (r: seq<StatementData>)
    ensures r == files + MaterialData(ss)
  {
    r := files;
    var i := 0;
    while i < |ss|
      invariant 0 <= i <= |ss|
      invariant r == files + MaterialData(ss[..i])
    {
      assert ss[..i + 1][..i] == ss[..i];
      if ss[i].kind == MaterialLibStatement {
        r := r + [ss[i].data];
      }
      i := i + 1;
    }
    assert ss[..|ss|] == ss;
  }

  /** Processing in two batches collects what processing the whole list does. */
  lemma {:induction false} MaterialDataAppend(a: seq<Statement>, b: seq<Statement>)
    ensures MaterialData(a + b) == MaterialData(a) + MaterialData(b)
    decreases |b|
  {
    if |b| == 0 {
      assert a + b == a;
    } else {
      assert (a + b)[..|a + b| - 1] == a + b[..|b| - 1];
      MaterialDataAppend(a, b[..|b| - 1]);
    }
  }

  /** Exactly the material library statements contribute, each with its own data: every file
      comes from such a statement, and every such statement gives a file. */
  lemma {:induction false} MaterialDataContents(ss: seq<Statement>)
    ensures forall d :: d in MaterialData(ss) <==> exists i :: 0 <= i < |ss| && ss[i].kind == MaterialLibStatement && ss[i].data == d
    decreases |ss|
  {
    if |ss| > 0 {
      var init := ss[..|ss| - 1];
      MaterialDataContents(init);
      forall d ensures d in MaterialData(ss) <==> exists i :: 0 <= i < |ss| && ss[i].kind == MaterialLibStatement && ss[i].data == d {
        if d in MaterialData(init) {
          var i :| 0 <= i < |init| && init[i].kind == MaterialLibStatement && init[i].data == d;
          assert ss[i] == init[i];
        }
        if exists i :: 0 <= i < |ss| && ss[i].kind == MaterialLibStatement && ss[i].data == d {
          var i :| 0 <= i < |ss| && ss[i].kind == MaterialLibStatement && ss[i].data == d;
          if i < |init| {
            assert init[i] == ss[i];
          }
        }
      }
    }
  }

  /** Statements of other types contribute nothing. */
  lemma {:induction false} NoMaterialNoFiles(ss: seq<Statement>)
    requires forall i :: 0 <= i < |ss| ==> ss[i].kind != MaterialLibStatement
    ensures MaterialData(ss) == []
    decreases |ss|
  {
    if |ss| > 0 {
      NoMaterialNoFiles(ss[..|ss| - 1]);
    }
  }

  /** The unit test: one material library statement gives a one-element tuple of its data. */
  method ProcessOneMaterialLib(name: string) returns (files: seq<StatementData>)
    ensures files == [Single(Text(name))]
  {
    var s := Statement(MaterialLibStatement, Single(Text(name)), 1, 1);
    assert MaterialData([s]) == MaterialData([]) + [s.data];
    files := ProcessStatements([], [s]);
  }
}
