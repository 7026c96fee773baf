/** The backend's response envelopes, as the services receive them. Every SDK
    call is an input: either the envelope it returned or the reason it threw. */
module Apper {
  import opened Wrappers

  datatype Call<R> = Returned(response: R) | Threw(reason: string)

  /** fetchRecords / getRecordById: `success`, `message` and an optional `data`. */
  datatype Fetched<D> = Fetched(success: bool, message: string, data: Option<D>)

  /** One entry of `results` after a create, update or delete. */
  datatype RecordResult<D> = RecordResult(success: bool, data: D)

  /** createRecord / updateRecord / deleteRecord: `success`, `message` and an
      optional `results` array. */
  datatype Written<D> = Written(success: bool, message: string, results: Option<seq<RecordResult<D>>>)
}
