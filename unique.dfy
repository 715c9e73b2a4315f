// unique/unique.go: the generator of fresh temporary and label names.
module Unique {
  import opened Decimal

  /** The name `MakeTemp` issues for counter value `k`. */
  function TempName(k: nat): string { "tmp." + NatToString(k) }

  /** The name `MakeLabel(prefix)` issues for counter value `k`. */
  function LabelName(prefix: string, k: nat): string { prefix + "." + NatToString(k) }

  /** Different counter values never give the same temporary. */
  lemma TempNameInjective(a: nat, b: nat)
    ensures TempName(a) == TempName(b) <==> a == b
  {
    if TempName(a) == TempName(b) {
      assert "tmp." + NatToString(a) == "tmp" + "." + NatToString(a);
      assert "tmp." + NatToString(b) == "tmp" + "." + NatToString(b);
      DottedNameInjective("tmp", a, "tmp", b);
    }
  }

  /** A label determines both its prefix and its counter value. */
  lemma LabelNameInjective(p1: string, a: nat, p2: string, b: nat)
    ensures LabelName(p1, a) == LabelName(p2, b) <==> p1 == p2 && a == b
  {
    if LabelName(p1, a) == LabelName(p2, b) {
      DottedNameInjective(p1, a, p2, b);
    }
  }

  class UniqueGen {
    var tempCount: nat
    var labelCount: nat

    /** NewUniqueGen (unique.go:10-15): both counters start at 0. */
    constructor ()
      ensures tempCount == 0 && labelCount == 0
    {
      tempCount := 0;
      labelCount := 0;
    }

    /** MakeTemp (unique.go:17-22): the name for the current temp count,
        which then advances; the result differs from every earlier one. */
    method MakeTemp() returns (name: string)
      modifies this
      ensures name == TempName(old(tempCount))
      ensures tempCount == old(tempCount) + 1 && labelCount == old(labelCount)
      ensures forall k :: 0 <= k < old(tempCount) ==> name != TempName(k)
    {
      name := "tmp." + NatToString(tempCount);
      forall k | 0 <= k < tempCount ensures name != TempName(k) {
        TempNameInjective(k, tempCount);
      }
      tempCount := tempCount + 1;
    }

    /** MakeLabel (unique.go:24-29): `prefix.<label count>`, then the label
        count advances; no earlier label, whatever its prefix, is repeated. */
    method MakeLabel(prefix: string) returns (name: string)
      modifies this
      ensures name == LabelName(prefix, old(labelCount))
      ensures labelCount == old(labelCount) + 1 && tempCount == old(tempCount)
      ensures forall p, k :: 0 <= k < old(labelCount) ==> name != LabelName(p, k)
    {
      name := prefix + "." + NatToString(labelCount);
      forall p, k | 0 <= k < labelCount ensures name != LabelName(p, k) {
        LabelNameInjective(p, k, prefix, labelCount);
      }
      labelCount := labelCount + 1;
    }
  }
}
