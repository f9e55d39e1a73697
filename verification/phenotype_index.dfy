/**
 The phenotype index: participant id to the distinct phenotype terms recorded
 for that participant, and its construction by grouping the rows of a
 phenotype table (columns `participant_id` and `term_id`).
 */
module PhenotypeIndex {
  import opened Common

  /** One row of the phenotype table. */
  datatype Row = Row(participantId: string, termId: string)

  /** Sample (participant) id to that sample's phenotype terms. */
  type Index = map<string, seq<string>>

  /** The `participant_id` column, row by row. */
  function ParticipantIds(rows: seq<Row>): (ids: seq<string>)
    ensures |ids| == |rows|
    ensures forall i :: 0 <= i < |rows| ==> ids[i] == rows[i].participantId
  {
    if |rows| == 0 then [] else [rows[0].participantId] + ParticipantIds(rows[1..])
  }

  /** The `term_id` column of the rows whose participant is `p`, in row order. */
  function TermsOf(rows: seq<Row>, p: string): (terms: seq<string>)
    ensures forall t :: t in terms <==> Row(p, t) in rows
    ensures |terms| <= |rows|
  {
    if |rows| == 0 then []
    else if rows[0].participantId == p then [rows[0].termId] + TermsOf(rows[1..], p)
    else TermsOf(rows[1..], p)
  }

  /**
   Groups the rows by participant: one entry per distinct participant id, each
   holding that participant's distinct terms in order of first appearance.
   The keys are exactly the participant ids of the rows; a term is listed for a
   participant exactly when some row pairs them; no list repeats a term.
   */
  function Build(rows: seq<Row>): (index: Index)
    ensures forall p :: p in index <==> exists i :: 0 <= i < |rows| && rows[i].participantId == p
    ensures forall p, t :: p in index ==> (t in index[p] <==> Row(p, t) in rows)
    ensures forall p :: p in index ==> NoDuplicates(index[p])
  {
    var ids := ParticipantIds(rows);
    map p | p in Unique(ids) :: Unique(TermsOf(rows, p))
  }
}
