// The medication catalogue both prescription editors of the doctor's pages
// search: a drug with its common dosages and frequencies, the suggestions
// for typed text, and the value a drug with one common choice fills in.

module Medications {
  import opened Common

  datatype Drug = Drug(name: string, commonDosages: seq<string>, commonFrequencies: seq<string>)

  /** catalogue.filter(med => med.name.toLowerCase().includes(text.toLowerCase())) */
  function Suggestions(catalogue: seq<Drug>, text: string): (r: seq<Drug>)
    ensures forall d :: d in r <==> d in catalogue && IncludesIgnoreCase(d.name, text)
  {
    Filter(catalogue, (d: Drug) => IncludesIgnoreCase(d.name, text))
  }

  /** The suggestions keep the catalogue's order, and empty text suggests
      the whole catalogue. */
  lemma SuggestionsInOrder(catalogue: seq<Drug>, text: string)
    ensures Subseq(Suggestions(catalogue, text), catalogue)
    ensures text == "" ==> Suggestions(catalogue, text) == catalogue
  {
    FilterIsSubseq(catalogue, (d: Drug) => IncludesIgnoreCase(d.name, text));
    if text == "" {
      forall d: Drug ensures IncludesIgnoreCase(d.name, text) {
        IncludesIgnoreCaseEmpty(d.name);
      }
      FilterAll(catalogue, (d: Drug) => IncludesIgnoreCase(d.name, text));
    }
  }

  /** common.length === 1 ? common[0] : current */
  function OnlyChoiceOr(common: seq<string>, current: string): (r: string)
    ensures |common| == 1 ==> r == common[0]
    ensures |common| != 1 ==> r == current
  {
    if |common| == 1 then common[0] else current
  }
}
