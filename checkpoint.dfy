/**
 * Checkpoint file names and the saves the training groups issue.
 */
module Checkpoint {
  import opened Wrappers

  predicate IsDigit(c: char)
  {
    '0' <= c <= '9'
  }

  /** The value of one decimal digit. */
  function DigitValue(c: char): (d: nat)
    requires IsDigit(c)
    ensures d < 10
  {
    (c as int) - ('0' as int)
  }

  function Digit(d: nat): (c: char)
    requires d < 10
    ensures IsDigit(c) && DigitValue(c) == d
  {
    (('0' as int) + d) as char
  }

  /** `std::to_string` of an unsigned count: its decimal digits without leading zeros. */
  function NatToString(n: nat): (s: string)
    ensures |s| >= 1
    ensures forall i :: 0 <= i < |s| ==> IsDigit(s[i])
    ensures |s| > 1 ==> s[0] != '0'
    ensures n < 10 <==> |s| == 1
  {
    if n < 10 then [Digit(n)] else NatToString(n / 10) + [Digit(n % 10)]
  }

  /** The value of a string of decimal digits. */
  function ParseDecimal(s: string): nat
    requires forall i :: 0 <= i < |s| ==> IsDigit(s[i])
  {
    if s == [] then 0
    else ParseDecimal(s[..|s| - 1]) * 10 + DigitValue(s[|s| - 1])
  }

  /** Reading the printed count back gives the count. */
  lemma {:induction false} ParsePrinted(n: nat)
    ensures ParseDecimal(NatToString(n)) == n
  {
    if n >= 10 {
      var s := NatToString(n);
      assert s[..|s| - 1] == NatToString(n / 10);
      ParsePrinted(n / 10);
    }
  }

  /** Different counts print differently. */
  lemma PrintedInjective(a: nat, b: nat)
    ensures NatToString(a) == NatToString(b) ==> a == b
  {
    ParsePrinted(a);
    ParsePrinted(b);
  }

  /** `name.replace(name.size() - 4, 4, ".iter" + batches + ".npz")`: the last four
      characters (the ".npz" extension) give way to an iteration-numbered one. A name
      shorter than four characters makes the unsigned position wrap past the end, and
      `std::string::replace` throws `out_of_range`. */
  function IterName(name: string, batches: nat): (r: Result<string, string>)
    ensures r.Failure? <==> |name| < 4
    ensures r.Success? ==>
      var k := |name| - 4;
      var out := r.value;
      |out| == |name| + 5 + |NatToString(batches)| &&
      out[..k] == name[..k] &&
      out[k..k + 5] == ".iter" &&
      out[|out| - 4..] == ".npz" &&
      (forall i :: k + 5 <= i < |out| - 4 ==> IsDigit(out[i])) &&
      ParseDecimal(out[k + 5..|out| - 4]) == batches
  {
    if |name| < 4 then Failure("out_of_range")
    else
      var out := name[..|name| - 4] + ".iter" + NatToString(batches) + ".npz";
      assert out[|name| + 1..|out| - 4] == NatToString(batches);
      ParsePrinted(batches);
      Success(out)
  }

  /** A call the group makes to save state: the builder writing a graph's parameters
      (with the flag the source passes as its third argument), or the reporter
      writing its training progress next to them. */
  datatype SaveAction<G> = BuilderSave(graph: G, path: string, final: bool) | ReporterSave(path: string)

  /** `save(graph, final)` of the asynchronous and single-device groups. */
  function SaveActions<G>(graph: G, overwrite: bool, final: bool, model: string, batches: nat): (r: Result<seq<SaveAction<G>>, string>)
    ensures r.Failure? <==> !overwrite && !final && |model| < 4
    ensures r.Success? ==>
      var acts := r.value;
      |acts| == (if overwrite || final then 2 else 3) &&
      acts[|acts| - 2] == BuilderSave(graph, model, true) &&
      acts[|acts| - 1] == ReporterSave(model) &&
      (|acts| == 3 ==> IterName(model, batches).Success? && acts[0] == BuilderSave(graph, IterName(model, batches).value, false)) &&
      forall i :: 0 <= i < |acts| && acts[i].BuilderSave? ==> acts[i].graph == graph
  {
    if overwrite then Success([BuilderSave(graph, model, true), ReporterSave(model)])
    else if !final then
      match IterName(model, batches)
      case Failure(e) => Failure(e)
      case Success(iterName) => Success([BuilderSave(graph, iterName, false), BuilderSave(graph, model, true), ReporterSave(model)])
    else Success([BuilderSave(graph, model, true), ReporterSave(model)])
  }

  /** File name of the synchronous group's checkpoints. */
  function SyncSaveName(model: string, overwrite: bool, batches: nat): (name: string)
    ensures |name| >= |model| + 4 && name[..|model|] == model && name[|name| - 4..] == ".npz"
    ensures overwrite <==> |name| == |model| + 4
    ensures !overwrite ==>
      name[|model|] == '.' &&
      (forall i :: |model| + 1 <= i < |name| - 4 ==> IsDigit(name[i])) &&
      ParseDecimal(name[|model| + 1..|name| - 4]) == batches
  {
    if overwrite then model + ".npz"
    else
      var name := model + "." + NatToString(batches) + ".npz";
      assert name[|model| + 1..|name| - 4] == NatToString(batches);
      ParsePrinted(batches);
      name
  }

  /** Without overwriting, checkpoints taken after different batch counts never share a file. */
  lemma SyncSaveNamesDistinct(model: string, b1: nat, b2: nat)
    requires b1 != b2
    ensures SyncSaveName(model, false, b1) != SyncSaveName(model, false, b2)
  {
  }

  /** The position of `graph` among the group's graphs (the loop in
      `AsyncGraphGroup::save(graph, final)`), 0 when it is not one of them. */
  method GraphIndex<G(==)>(graphs: seq<G>, graph: G) returns (idx: nat)
    ensures graph in graphs ==> idx < |graphs| && graphs[idx] == graph && graph !in graphs[..idx]
    ensures graph !in graphs ==> idx == 0
  {
    idx := 0;
    var i := 0;
    while i < |graphs|
      invariant 0 <= i <= |graphs|
      invariant idx == 0 && graph !in graphs[..i]
    {
      if graph == graphs[i] {
        idx := i;
        return;
      }
      assert graphs[..i + 1] == graphs[..i] + [graphs[i]];
      i := i + 1;
    }
    assert graphs[..i] == graphs;
  }
}
