/** The derived `variant_name`: one match arm per variant, named after its identifier. */
module Derive {
  import opened FsmTypes

  datatype Arm = Arm(pattern: string, name: string)

  /** The generated match: `Self::Ident .. => "Ident"` for every variant, in order. */
  function Arms(variants: seq<string>): seq<Arm> {
    seq(|variants|, i requires 0 <= i < |variants| => Arm(variants[i], variants[i]))
  }

  /** The name in the first arm whose pattern is the identifier of the value's variant. */
  function Match(arms: seq<Arm>, identifier: string): Option<string> {
    if arms == [] then None
    else if arms[0].pattern == identifier then Some(arms[0].name)
    else Match(arms[1..], identifier)
  }

  /** What `variant_name` returns for a value of the k-th variant. */
  predicate DerivedName(variants: seq<string>, k: nat, name: string) {
    k < |variants| && Match(Arms(variants), variants[k]) == Some(name)
  }

  predicate Distinct(variants: seq<string>) {
    forall i, j :: 0 <= i < j < |variants| ==> variants[i] != variants[j]
  }

  lemma {:induction false} MatchFindsName(arms: seq<Arm>, identifier: string, k: nat)
    requires k < |arms| && arms[k].pattern == identifier
    requires forall i :: 0 <= i < |arms| ==> arms[i].name == arms[i].pattern
    ensures Match(arms, identifier) == Some(identifier)
  {
    if arms[0].pattern != identifier {
      MatchFindsName(arms[1..], identifier, k - 1);
    }
  }

  lemma DerivedNameIsIdentifier(variants: seq<string>, k: nat, name: string)
    requires k < |variants|
    ensures DerivedName(variants, k, name) <==> name == variants[k]
  {
    MatchFindsName(Arms(variants), variants[k], k);
  }

  /** Two values have the same name exactly when they are of the same variant, payloads aside. */
  lemma NamesIdentifyVariants(variants: seq<string>, k: nat, l: nat, kName: string, lName: string)
    requires Distinct(variants) && DerivedName(variants, k, kName) && DerivedName(variants, l, lName)
    ensures kName == lName <==> k == l
  {
    DerivedNameIsIdentifier(variants, k, kName);
    DerivedNameIsIdentifier(variants, l, lName);
  }
}
