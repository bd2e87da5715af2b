/**
 * Described class predicates: a matcher the rule does not look inside, plus
 * the human-readable description that the rule's own description quotes.
 */
module Predicates {
  import opened Text

  /**
   * What decides whether a class belongs to a layer. Package matching and
   * arbitrary caller predicates are ArchUnit code; only their identity is kept.
   */
  datatype Matcher =
    | ResideInAnyPackage(packageIdentifiers: seq<string>)
    | Custom(id: nat)

  datatype DescribedPredicate = DescribedPredicate(matcher: Matcher, description: string)

  /** `s` between single quotes; dropping the first and last character gives `s` back. */
  function SingleQuoted(s: string): (quoted: string)
    ensures |quoted| == |s| + 2
    ensures quoted[0] == '\'' && quoted[|quoted| - 1] == '\''
    ensures quoted[1..|quoted| - 1] == s
  {
    "'" + s + "'"
  }

  /** Every identifier single-quoted, in input order. */
  function AllSingleQuoted(ids: seq<string>): (quoted: seq<string>)
    ensures |quoted| == |ids|
    ensures forall i :: 0 <= i < |ids| ==> quoted[i] == SingleQuoted(ids[i])
  {
    if |ids| == 0 then [] else [SingleQuoted(ids[0])] + AllSingleQuoted(ids[1..])
  }

  /** The identifiers single-quoted and joined with ", ", never reordered. */
  function JoinSingleQuoted(ids: seq<string>): (r: string)
    ensures |ids| == 0 ==> r == ""
    ensures |ids| >= 1 ==> SingleQuoted(ids[0]) <= r
  {
    Join(AllSingleQuoted(ids), ", ")
  }

  /** The predicate behind every String-pattern layer setter. */
  function ByPackagePredicate(packageIdentifiers: seq<string>): (p: DescribedPredicate)
    ensures p.matcher == ResideInAnyPackage(packageIdentifiers)
    ensures |packageIdentifiers| >= 1 ==> SingleQuoted(packageIdentifiers[0]) <= p.description
  {
    DescribedPredicate(ResideInAnyPackage(packageIdentifiers), JoinSingleQuoted(packageIdentifiers))
  }

  /** One identifier is described as itself in single quotes. */
  lemma ByPackagePredicateOne(id: string)
    ensures ByPackagePredicate([id]).description == "'" + id + "'"
    ensures ByPackagePredicate([id]).matcher == ResideInAnyPackage([id])
  {
  }

  /** One more identifier extends the description at its end: input order is kept. */
  lemma ByPackagePredicateAppend(ids: seq<string>, id: string)
    requires |ids| >= 1
    ensures ByPackagePredicate(ids + [id]).description
         == ByPackagePredicate(ids).description + ", " + "'" + id + "'"
  {
    assert AllSingleQuoted(ids + [id]) == AllSingleQuoted(ids) + [SingleQuoted(id)];
    JoinAppend(AllSingleQuoted(ids), SingleQuoted(id), ", ");
  }
}
