/** The per-visitor session that express-session keeps: the signed-in user, and the
    record the upload wizard of routes/ops.js carries from step to step. */
module Sessions {
  import opened Common
  import opened BankDetector
  import opened TransactionsDb

  /** `req.session.uploadState`. Properties the wizard has not set yet are `None`. */
  datatype UploadState = UploadState(
    filePath: string, fileName: string, fileSize: nat, statementText: string,
    bankDetection: Option<Detection>, userId: int, country: Option<string>, step: int,
    bank: Option<string>, extractedTransactions: Option<seq<Candidate>>,
    skippedTransactionIds: Option<seq<int>>)

  class Session {
    var userId: Option<int>
    var userEmail: Option<string>
    var uploadState: Option<UploadState>
    var destroyed: bool

    /** A fresh, anonymous session. */
    constructor ()
      ensures userId == None && userEmail == None && uploadState == None && !destroyed
    {
      userId := None;
      userEmail := None;
      uploadState := None;
      destroyed := false;
    }

    /** `req.session.userId` is truthy: the `isAuthenticated` guard in front of
        /dashboard and /ops lets the request through. */
    predicate SignedIn()
      reads this
    {
      userId.Some? && userId.value != 0
    }
  }
}
