/** The grammar theorem: the parser decides the restricted grammar and computes its denotation. */
module JsonTheorems {
  import opened Wrappers
  import opened JsonGrammar
  import opened JsonScanner
  import opened JsonCompleteness
  import opened JsonSoundness

  /** The text is accepted with value `v` exactly when it derives `v`; an accepted text is read to
      its last byte. */
  lemma AcceptsExactlyTheGrammar(text: string, v: Json, fits: string -> bool)
    ensures Document(text, fits) == Ok(v, |text|) <==> Derives(text, v, fits)
    ensures Document(text, fits).Ok? ==> Document(text, fits).next == |text|
  {
    hide Document, Wf, Admissible, Denote;
    if Document(text, fits).Ok? {
      var d := DocumentSound(text, fits);
    }
    if Derives(text, v, fits) {
      var d :| WfDoc(d) && Admissible(d.v, fits, MAX_DEPTH) && DocText(d) == text && Denote(d.v) == v;
      DocumentComplete(d, fits);
    }
  }

  /** A text derives at most one value. */
  lemma GrammarIsUnambiguous(text: string, v: Json, w: Json, fits: string -> bool)
    requires Derives(text, v, fits) && Derives(text, w, fits)
    ensures v == w
  {
    hide Document, Derives;
    AcceptsExactlyTheGrammar(text, v, fits);
    AcceptsExactlyTheGrammar(text, w, fits);
  }

  /** An exception is thrown exactly for the texts that derive nothing. */
  lemma RejectsExactlyTheRest(text: string, fits: string -> bool)
    ensures Document(text, fits).Err? <==> forall v :: !Derives(text, v, fits)
  {
    hide Document, Derives;
    forall v
      ensures Document(text, fits) == Ok(v, |text|) <==> Derives(text, v, fits)
    {
      AcceptsExactlyTheGrammar(text, v, fits);
    }
    if Document(text, fits).Ok? {
      AcceptsExactlyTheGrammar(text, Document(text, fits).value, fits);
      assert Derives(text, Document(text, fits).value, fits);
    }
  }
}
