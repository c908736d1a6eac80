/** The response side of the HTTP transport (transport/endpoints/common.go):
    the status code ErrorEncoder picks for an error, the JSON value of the
    response's error field, and the envelope both encoders write. The HTTP
    writer and the JSON encoder themselves are not modelled; a response is the
    value they would serialise. */
module Endpoints {
  import opened Wrappers
  import opened Errors
  import Wallet

  const StatusBadRequest: int := 400
  const StatusPaymentRequired: int := 402
  const StatusNotFound: int := 404
  const StatusInternalServerError: int := 500

  /** The JSON values the error field can take. */
  datatype Json = JsonNull | JsonString(text: string)

  /** Response: the error field and the data field (absent for an error). */
  datatype Response<T> = Response(error: Json, data: Option<T>)

  /** errorWrapper.MarshalJSON: `null` without an error, else its message as a JSON string. */
  function MarshalError(err: Option<Error>): Json
  {
    if err.Some? then JsonString(ErrorString(err.value)) else JsonNull
  }

  /** EncodeResponse: the data with a nil error. */
  function EncodeResponse<T>(data: T): (r: Response<T>)
    ensures r.error == JsonNull && r.data == Some(data)
  {
    Response(MarshalError(None), Some(data))
  }

  /** The status ErrorEncoder writes: the first of NotFoundWrapper (404),
      DBErrorWrapper (500), LowBalanceWrapper (402) and ValidationError (400)
      that xerrors.As finds on the chain, and 500 for any other error. */
  function Status(err: Error): int
  {
    if ChainHas(err, NotFoundKind) then StatusNotFound
    else if ChainHas(err, DBErrorKind) then StatusInternalServerError
    else if ChainHas(err, LowBalanceKind) then StatusPaymentRequired
    else if ChainHas(err, ValidationKind) then StatusBadRequest
    else StatusInternalServerError
  }

  /** ErrorEncoder: the status and a response whose error field is the
      error's message. */
  function ErrorEncoder(err: Error): (r: (int, Response<()>))
    ensures r.0 == Status(err)
    ensures r.1.error == JsonString(ErrorString(err)) && r.1.data.None?
  {
    (Status(err), Response(MarshalError(Some(err)), None))
  }

  /** The status in terms of the links of the error's Unwrap chain: 404
      exactly when a NotFoundWrapper is on it; 402 exactly when a
      LowBalanceWrapper is and neither a NotFoundWrapper nor a DBErrorWrapper
      is; 400 exactly when a ValidationError is and none of the other three
      is; 500 otherwise. No other code is written. */
  lemma StatusByChain(err: Error)
    ensures Status(err) == StatusNotFound <==> OnChain(err, NotFoundKind)
    ensures Status(err) == StatusPaymentRequired <==>
              OnChain(err, LowBalanceKind) && !OnChain(err, NotFoundKind) && !OnChain(err, DBErrorKind)
    ensures Status(err) == StatusBadRequest <==>
              OnChain(err, ValidationKind) && !OnChain(err, NotFoundKind) && !OnChain(err, DBErrorKind) &&
              !OnChain(err, LowBalanceKind)
    ensures Status(err) == StatusInternalServerError <==>
              !OnChain(err, NotFoundKind) &&
              (OnChain(err, DBErrorKind) || (!OnChain(err, LowBalanceKind) && !OnChain(err, ValidationKind)))
  {
    ChainHasIsSomeLink(err, NotFoundKind);
    ChainHasIsSomeLink(err, DBErrorKind);
    ChainHasIsSomeLink(err, LowBalanceKind);
    ChainHasIsSomeLink(err, ValidationKind);
  }

  /** xerrors.Errorf with %w is transparent: the status and the chain's
      kinds are those of the cause. */
  lemma StatusThroughErrorf(context: string, cause: Error)
    ensures Status(Errorf(context, cause)) == Status(cause)
  {
  }

  /** A response's error field is null exactly when there is no error, and
      the wrappers add nothing to the text. */
  lemma MarshalErrorText(err: Option<Error>)
    ensures MarshalError(err) == JsonNull <==> err.None?
    ensures err.Some? ==> MarshalError(Some(NotFoundWrapper(err.value))) == MarshalError(err) &&
                          MarshalError(Some(LowBalanceWrapper(err.value))) == MarshalError(err) &&
                          MarshalError(Some(DBErrorWrapper(err.value))) == MarshalError(err) &&
                          MarshalError(Some(ValidationError(err.value))) == MarshalError(err)
  {
  }

  /** What the client sees for the errors a transfer attempt builds: a
      missing account is 404 with the "account ... not found" text; too
      little balance is 402; a currency mismatch is not classified and is
      500; a ledger insert failure, inside a DBErrorWrapper, is 500 unless
      the driver error itself carries a NotFoundWrapper. */
  lemma TransferErrorStatuses(name: string, id: string, e: Error)
    ensures ChainHas(e, NoRowsKind) ==>
              ErrorEncoder(Wallet.FetchError(name, e)) ==
                (StatusNotFound, Response(JsonString("account " + name + " not found"), None))
    ensures !ChainHas(e, NoRowsKind) ==> Status(Wallet.FetchError(name, e)) == Status(e)
    ensures ErrorEncoder(LowBalanceWrapper(New(Wallet.LowBalanceMessage(id)))) ==
              (StatusPaymentRequired, Response(JsonString(id + ": don't have enough balance"), None))
    ensures Status(New(Wallet.CurrencyMessage)) == StatusInternalServerError
    ensures !ChainHas(e, NotFoundKind) ==>
              Status(Errorf("error during add ledger", DBErrorWrapper(e))) == StatusInternalServerError
  {
    FetchErrorStatus(name, e);
    LowBalanceStatus(id);
    InsertErrorStatus(e);
  }

  /** A failed account fetch: 404 with its text when sql.ErrNoRows is on the
      chain, otherwise the status of the driver's error. */
  lemma FetchErrorStatus(name: string, e: Error)
    ensures ChainHas(e, NoRowsKind) ==>
              ErrorEncoder(Wallet.FetchError(name, e)) ==
                (StatusNotFound, Response(JsonString("account " + name + " not found"), None))
    ensures !ChainHas(e, NoRowsKind) ==> Status(Wallet.FetchError(name, e)) == Status(e)
  {
    if ChainHas(e, NoRowsKind) {
      var missing := NotFoundWrapper(New(Wallet.NotFoundMessage(name)));
      assert ChainHas(missing, NotFoundKind);
      assert ErrorString(missing) == "account " + name + " not found";
    }
  }

  /** Too little balance: 402 with the "don't have enough balance" text. */
  lemma LowBalanceStatus(id: string)
    ensures ErrorEncoder(LowBalanceWrapper(New(Wallet.LowBalanceMessage(id)))) ==
              (StatusPaymentRequired, Response(JsonString(id + ": don't have enough balance"), None))
  {
    var low := LowBalanceWrapper(New(Wallet.LowBalanceMessage(id)));
    assert !ChainHas(New(Wallet.LowBalanceMessage(id)), NotFoundKind);
    assert !ChainHas(New(Wallet.LowBalanceMessage(id)), DBErrorKind);
    assert ChainHas(low, LowBalanceKind);
    assert ErrorString(low) == id + ": don't have enough balance";
  }

  /** A currency mismatch is 500, and so is a failed ledger insert unless its
      driver error carries a NotFoundWrapper. */
  lemma InsertErrorStatus(e: Error)
    ensures Status(New(Wallet.CurrencyMessage)) == StatusInternalServerError
    ensures !ChainHas(e, NotFoundKind) ==>
              Status(Errorf("error during add ledger", DBErrorWrapper(e))) == StatusInternalServerError
  {
    var insert := Errorf("error during add ledger", DBErrorWrapper(e));
    assert ChainHas(insert, NotFoundKind) == ChainHas(e, NotFoundKind);
    assert ChainHas(DBErrorWrapper(e), DBErrorKind);
  }
}
