/**
 * The partner registry: a table from partner id to the partner's data and
 * the mode and score its inspection produced.  The source keeps one
 * process-wide table; here it is an object the caller holds.
 */
module PartnerRegistry {
  import opened PartnerAI

  datatype PartnerRecord<Data> = PartnerRecord(data: Data, status: Mode, score: int)

  /** The table after registering `id`. */
  function Registered<Data>(m: map<string, PartnerRecord<Data>>, id: string, data: Data, result: Inspection)
    : (r: map<string, PartnerRecord<Data>>)
    ensures r.Keys == m.Keys + {id}
    ensures r[id].data == data && r[id].status == result.mode && r[id].score == result.score
    ensures forall other :: other in m && other != id ==> r[other] == m[other]
  {
    m[id := PartnerRecord(data, result.mode, result.score)]
  }

  /** Registering the same id twice keeps only the second registration. */
  lemma LastWriteWins<Data>(m: map<string, PartnerRecord<Data>>, id: string,
                            data1: Data, result1: Inspection, data2: Data, result2: Inspection)
    ensures Registered(Registered(m, id, data1, result1), id, data2, result2) == Registered(m, id, data2, result2)
  {
  }

  /** Registration ignores the approval decision: an unapproved partner is stored just the same. */
  lemma ApprovalIgnored<Data>(m: map<string, PartnerRecord<Data>>, id: string, data: Data, result: Inspection)
    ensures Registered(m, id, data, result) == Registered(m, id, data, result.(approved := !result.approved))
  {
  }

  class Partners<Data> {
    var table: map<string, PartnerRecord<Data>>

    constructor ()
      ensures table == map[]
    {
      table := map[];
    }

    /** `register_partner(partner_id, data, ai_result)` */
    method RegisterPartner(partnerId: string, data: Data, result: Inspection)
      modifies this
      ensures table == Registered(old(table), partnerId, data, result)
    {
      table := table[partnerId := PartnerRecord(data, result.mode, result.score)];
    }
  }
}
