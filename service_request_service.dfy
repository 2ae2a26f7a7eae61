/**
 * `ServiceRequestService`: creation, editing and deletion of service
 * requests, the status update with its verification-code handshake, and code
 * generation and checking.
 *
 * The store is a map from id to request. The clock (`DateTime.UtcNow`) is the
 * parameter `now`; the value `Random.Next(100000, 999999)` returns is the
 * parameter `drawn`. An operation that throws is a `Failure` and leaves the
 * store as it was, since nothing is saved.
 */
module ServiceRequests {
  import opened Common
  import opened Text
  import opened Domain

  /** The exceptions the service throws. */
  datatype RequestError =
    | ClientNotFound(clientId: int)
    | ProfessionalNotFound(professionalId: int)
    | RequestNotFound(requestId: int)
      /** No code has been issued ("Gere um codigo de verificacao antes de concluir o servico."). */
    | CodeNotGenerated
      /** The caller sent no code ("Informe o codigo de confirmacao fornecido pelo cliente."). */
    | CodeNotInformed
      /** The codes differ ("Codigo de confirmacao incorreto."). */
    | CodeIncorrect

  datatype CreateRequestDto = CreateRequestDto(
    clientId: int,
    professionalId: int,
    title: string,
    description: Option<string>,
    serviceAddress: Option<string>,
    scheduledDate: Option<int>,
    proposedValue: Option<real>,
    observations: Option<string>)

  datatype UpdateRequestDto = UpdateRequestDto(
    id: int,
    title: string,
    description: Option<string>,
    serviceAddress: Option<string>,
    scheduledDate: Option<int>,
    proposedValue: Option<real>,
    status: ServiceStatus,
    observations: Option<string>)

  /** `string.IsNullOrEmpty`. */
  predicate IsNullOrEmpty(s: Option<string>)
  {
    s.None? || s.value == ""
  }

  /** `string.IsNullOrWhiteSpace`. */
  predicate IsNullOrWhiteSpace(s: Option<string>)
  {
    s.None? || IsBlank(s.value)
  }

  /** `Random.Next(100000, 999999)` returns a value in [100000, 999999): the upper bound is exclusive. */
  predicate Drawable(n: int)
  {
    100000 <= n < 999999
  }

  /** `GenerateCodeValue`: the drawn number in decimal, which always has six digits. */
  function GenerateCodeValue(drawn: int): (code: string)
    requires Drawable(drawn)
    ensures |code| == 6 && AllDigits(code) && code[0] != '0'
    ensures DecimalValue(code) == drawn
  {
    assert Pow10(5) == 100000 && Pow10(6) == 1000000;
    NatToStringLength(drawn, 6);
    NatToStringValue(drawn);
    NatToString(drawn)
  }

  /** A code made of digits is neither null, empty nor white space. */
  lemma GeneratedCodeNotBlank(drawn: int)
    requires Drawable(drawn)
    ensures !IsNullOrWhiteSpace(Some(GenerateCodeValue(drawn)))
    ensures !IsNullOrEmpty(Some(GenerateCodeValue(drawn)))
  {
    var code := GenerateCodeValue(drawn);
    assert IsDigit(code[0]) && !IsSpace(code[0]);
  }

  /** A request has a completion date exactly when it is Completed. */
  predicate CompletionConsistent(r: ServiceRequest)
  {
    r.completionDate.Some? <==> r.status == Completed
  }

  /** The request `CreateAsync` adds: Pending, active, with no code and no completion date. */
  function NewRequest(id: int, dto: CreateRequestDto, now: int): (r: ServiceRequest)
    ensures r.status == Pending && r.isActive
    ensures r.verificationCode.None? && r.completionDate.None? && r.updatedAt.None?
    ensures r.id == id && r.clientId == dto.clientId && r.professionalId == dto.professionalId
    ensures r.title == dto.title && r.description == dto.description && r.serviceAddress == dto.serviceAddress
    ensures r.scheduledDate == dto.scheduledDate && r.proposedValue == dto.proposedValue
    ensures r.observations == dto.observations && r.createdAt == now
    ensures CompletionConsistent(r)
  {
    ServiceRequest(id, dto.clientId, dto.professionalId, dto.title, dto.description, dto.serviceAddress,
      dto.scheduledDate, dto.proposedValue, Pending, dto.observations, None, None, now, None, true)
  }

  /**
   * `UpdateAsync`'s field assignments: the editable fields and the status are
   * overwritten verbatim; the code, the completion date, the parties and the
   * creation date are left alone.
   */
  function ApplyUpdate(r: ServiceRequest, dto: UpdateRequestDto, now: int): (u: ServiceRequest)
    ensures u.status == dto.status && u.updatedAt == Some(now)
    ensures u.title == dto.title && u.description == dto.description && u.serviceAddress == dto.serviceAddress
    ensures u.scheduledDate == dto.scheduledDate && u.proposedValue == dto.proposedValue
    ensures u.observations == dto.observations
    ensures u.verificationCode == r.verificationCode && u.completionDate == r.completionDate
    ensures u.id == r.id && u.clientId == r.clientId && u.professionalId == r.professionalId
    ensures u.createdAt == r.createdAt && u.isActive == r.isActive
  {
    r.(title := dto.title, description := dto.description, serviceAddress := dto.serviceAddress,
       scheduledDate := dto.scheduledDate, proposedValue := dto.proposedValue, status := dto.status,
       observations := dto.observations, updatedAt := Some(now))
  }

  /** `UpdateAsync` can mark a request Completed with no code check and no completion date. */
  lemma UpdateBreaksCompletionInvariant(r: ServiceRequest, dto: UpdateRequestDto, now: int)
    requires CompletionConsistent(r) && r.status != Completed && dto.status == Completed
    ensures ApplyUpdate(r, dto, now).status == Completed
    ensures !CompletionConsistent(ApplyUpdate(r, dto, now))
  {
  }

  /**
   * `UpdateStatusAsync` on a loaded request: the requested status is applied
   * whatever the current one; moving to Accepted issues a code when none is
   * stored; completing needs a stored code and an identical supplied code.
   */
  function StatusUpdate(r: ServiceRequest, status: ServiceStatus, supplied: Option<string>, drawn: int, now: int)
    : (res: Result<ServiceRequest, RequestError>)
    requires Drawable(drawn)
    ensures res.Failure? <==>
      (status == Completed
       && (IsNullOrWhiteSpace(r.verificationCode) || IsNullOrWhiteSpace(supplied) || supplied != r.verificationCode))
    ensures res == Failure(CodeNotGenerated) <==> status == Completed && IsNullOrWhiteSpace(r.verificationCode)
    ensures res == Failure(CodeNotInformed) <==>
      status == Completed && !IsNullOrWhiteSpace(r.verificationCode) && IsNullOrWhiteSpace(supplied)
    ensures res == Failure(CodeIncorrect) <==>
      status == Completed && !IsNullOrWhiteSpace(r.verificationCode) && !IsNullOrWhiteSpace(supplied)
      && supplied != r.verificationCode
    ensures res.Success? ==> res.value.status == status && res.value.updatedAt == Some(now)
    ensures res.Success? ==> CompletionConsistent(res.value)
    ensures res.Success? && status == Completed ==>
      res.value.completionDate == Some(now) && res.value.verificationCode == supplied == r.verificationCode
    ensures res.Success? && !IsNullOrEmpty(r.verificationCode) ==> res.value.verificationCode == r.verificationCode
    ensures res.Success? && status == Accepted && IsNullOrEmpty(r.verificationCode) ==>
      res.value.verificationCode == Some(GenerateCodeValue(drawn))
    ensures res.Success? && status == Accepted ==> !IsNullOrEmpty(res.value.verificationCode)
    ensures res.Success? && status != Accepted && status != Completed ==>
      res.value.verificationCode ==
        if !IsNullOrWhiteSpace(supplied) && IsNullOrEmpty(r.verificationCode) then Some(Trim(supplied.value))
        else r.verificationCode
    ensures res.Success? ==>
      res.value.(status := r.status, verificationCode := r.verificationCode,
                 completionDate := r.completionDate, updatedAt := r.updatedAt) == r
  {
    GeneratedCodeNotBlank(drawn);
    var code := if status == Accepted && IsNullOrEmpty(r.verificationCode) then Some(GenerateCodeValue(drawn))
                else r.verificationCode;
    if status == Completed then
      if IsNullOrWhiteSpace(code) then Failure(CodeNotGenerated)
      else if IsNullOrWhiteSpace(supplied) then Failure(CodeNotInformed)
      else if code != supplied then Failure(CodeIncorrect)
      else Success(r.(status := status, verificationCode := code, completionDate := Some(now), updatedAt := Some(now)))
    else
      var kept := if !IsNullOrWhiteSpace(supplied) && IsNullOrEmpty(code) then Some(Trim(supplied.value)) else code;
      Success(r.(status := status, verificationCode := kept, completionDate := None, updatedAt := Some(now)))
  }

  /** Whether the request exists and its stored code equals `code` exactly (`VerifyCodeAsync`). */
  predicate CodeMatches(requests: map<int, ServiceRequest>, id: int, code: string)
  {
    id in requests && requests[id].verificationCode == Some(code)
  }

  /** Requests of one client (`GetByClientIdAsync`). */
  function ForClient(requests: map<int, ServiceRequest>, clientId: int): (r: map<int, ServiceRequest>)
    ensures forall id :: id in r <==> id in requests && requests[id].clientId == clientId
    ensures forall id :: id in r ==> r[id] == requests[id]
  {
    map id | id in requests && requests[id].clientId == clientId :: requests[id]
  }

  /** Requests addressed to one professional (`GetByProfessionalIdAsync`). */
  function ForProfessional(requests: map<int, ServiceRequest>, professionalId: int): (r: map<int, ServiceRequest>)
    ensures forall id :: id in r <==> id in requests && requests[id].professionalId == professionalId
    ensures forall id :: id in r ==> r[id] == requests[id]
  {
    map id | id in requests && requests[id].professionalId == professionalId :: requests[id]
  }

  /** Each stored request is listed for its client and for its professional, and for nobody else. */
  lemma ListedForItsParties(requests: map<int, ServiceRequest>, id: int, clientId: int, professionalId: int)
    requires id in requests
    ensures id in ForClient(requests, clientId) <==> requests[id].clientId == clientId
    ensures id in ForProfessional(requests, professionalId) <==> requests[id].professionalId == professionalId
  {
  }

  /** A freshly generated code always lets the request be completed with that same code. */
  lemma GeneratedCodeCompletes(r: ServiceRequest, drawn: int, drawn2: int, now: int)
    requires Drawable(drawn) && Drawable(drawn2)
    ensures var code := GenerateCodeValue(drawn);
      var res := StatusUpdate(r.(verificationCode := Some(code)), Completed, Some(code), drawn2, now);
      res.Success? && res.value.status == Completed && res.value.completionDate == Some(now)
  {
    GeneratedCodeNotBlank(drawn);
  }

  /**
   * Accepting a request with no code issues one; completing then succeeds
   * with exactly that code and fails with any other.
   */
  lemma AcceptThenComplete(r: ServiceRequest, drawn: int, drawn2: int, supplied: string, now: int, later: int)
    requires Drawable(drawn) && Drawable(drawn2) && IsNullOrEmpty(r.verificationCode)
    ensures StatusUpdate(r, Accepted, None, drawn, now).Success?
    ensures var accepted := StatusUpdate(r, Accepted, None, drawn, now).value;
      var done := StatusUpdate(accepted, Completed, Some(supplied), drawn2, later);
      done.Success? <==> supplied == GenerateCodeValue(drawn)
  {
    GeneratedCodeNotBlank(drawn);
    var code := GenerateCodeValue(drawn);
    if supplied == code {
      assert !IsBlank(supplied) by {
        assert IsDigit(supplied[0]);
      }
    }
  }

  /** The service's store: requests by id, and the identity the database would assign next. */
  class ServiceRequestStore {
    var requests: map<int, ServiceRequest>
    var nextId: int

    ghost predicate Valid()
      reads this
    {
      forall id :: id in requests ==> requests[id].id == id && id < nextId
    }

    constructor ()
      ensures Valid() && requests == map[]
    {
      requests := map[];
      nextId := 1;
    }

    /** `CreateAsync`: the client must exist, then the professional; the new request is Pending. */
    method Create(clients: set<int>, professionals: set<int>, dto: CreateRequestDto, now: int)
      returns (res: Result<ServiceRequest, RequestError>)
      requires Valid()
      modifies this
      ensures Valid()
      ensures dto.clientId !in clients ==>
        res == Failure(ClientNotFound(dto.clientId)) && requests == old(requests)
      ensures dto.clientId in clients && dto.professionalId !in professionals ==>
        res == Failure(ProfessionalNotFound(dto.professionalId)) && requests == old(requests)
      ensures dto.clientId in clients && dto.professionalId in professionals ==>
        res == Success(NewRequest(old(nextId), dto, now))
        && old(nextId) !in old(requests)
        && requests == old(requests)[old(nextId) := res.value]
    {
      if dto.clientId !in clients {
        return Failure(ClientNotFound(dto.clientId));
      }
      if dto.professionalId !in professionals {
        return Failure(ProfessionalNotFound(dto.professionalId));
      }
      var r := NewRequest(nextId, dto, now);
      requests := requests[nextId := r];
      nextId := nextId + 1;
      res := Success(r);
    }

    /** `UpdateAsync`: overwrite the editable fields and the status of an existing request. */
    method Update(dto: UpdateRequestDto, now: int) returns (res: Result<ServiceRequest, RequestError>)
      requires Valid()
      modifies this
      ensures Valid() && nextId == old(nextId)
      ensures dto.id !in old(requests) ==> res == Failure(RequestNotFound(dto.id)) && requests == old(requests)
      ensures dto.id in old(requests) ==>
        res == Success(ApplyUpdate(old(requests)[dto.id], dto, now))
        && requests == old(requests)[dto.id := res.value]
    {
      if dto.id !in requests {
        return Failure(RequestNotFound(dto.id));
      }
      var r := requests[dto.id];
      r := r.(title := dto.title, description := dto.description, serviceAddress := dto.serviceAddress);
      r := r.(scheduledDate := dto.scheduledDate, proposedValue := dto.proposedValue);
      r := r.(status := dto.status, observations := dto.observations, updatedAt := Some(now));
      requests := requests[dto.id := r];
      res := Success(r);
    }

    /** `DeleteAsync`: false, and nothing removed, for an unknown id. */
    method Delete(id: int) returns (deleted: bool)
      requires Valid()
      modifies this
      ensures Valid() && nextId == old(nextId)
      ensures deleted == (id in old(requests))
      ensures requests == old(requests) - {id}
    {
      if id !in requests {
        return false;
      }
      requests := requests - {id};
      deleted := true;
    }

    /** `UpdateStatusAsync`, step by step on the loaded request; nothing is saved when a check throws. */
    method UpdateStatus(id: int, status: ServiceStatus, supplied: Option<string>, drawn: int, now: int)
      returns (res: Result<ServiceRequest, RequestError>)
      requires Valid() && Drawable(drawn)
      modifies this
      ensures Valid() && nextId == old(nextId)
      ensures id !in old(requests) ==> res == Failure(RequestNotFound(id)) && requests == old(requests)
      ensures id in old(requests) ==> res == StatusUpdate(old(requests)[id], status, supplied, drawn, now)
      ensures res.Success? ==> id in old(requests) && requests == old(requests)[id := res.value]
      ensures res.Failure? ==> requests == old(requests)
    {
      if id !in requests {
        return Failure(RequestNotFound(id));
      }
      var r := requests[id];
      r := r.(status := status);
      if r.status == Accepted && IsNullOrEmpty(r.verificationCode) {
        r := r.(verificationCode := Some(GenerateCodeValue(drawn)));
      }
      if r.status == Completed {
        if IsNullOrWhiteSpace(r.verificationCode) {
          return Failure(CodeNotGenerated);
        }
        if IsNullOrWhiteSpace(supplied) {
          return Failure(CodeNotInformed);
        }
        if r.verificationCode != supplied {
          return Failure(CodeIncorrect);
        }
        r := r.(completionDate := Some(now));
      } else {
        r := r.(completionDate := None);
        if !IsNullOrWhiteSpace(supplied) && IsNullOrEmpty(r.verificationCode) {
          r := r.(verificationCode := Some(Trim(supplied.value)));
        }
      }
      r := r.(updatedAt := Some(now));
      requests := requests[id := r];
      res := Success(r);
    }

    /** `GenerateVerificationCodeAsync`: a fresh code replaces any previous one and is returned. */
    method GenerateVerificationCode(id: int, drawn: int, now: int) returns (res: Result<string, RequestError>)
      requires Valid() && Drawable(drawn)
      modifies this
      ensures Valid() && nextId == old(nextId)
      ensures id !in old(requests) ==> res == Failure(RequestNotFound(id)) && requests == old(requests)
      ensures id in old(requests) ==>
        res == Success(GenerateCodeValue(drawn))
        && requests == old(requests)[id := old(requests)[id].(verificationCode := Some(res.value), updatedAt := Some(now))]
      ensures res.Success? ==> CodeMatches(requests, id, res.value)
    {
      if id !in requests {
        return Failure(RequestNotFound(id));
      }
      var code := GenerateCodeValue(drawn);
      requests := requests[id := requests[id].(verificationCode := Some(code), updatedAt := Some(now))];
      res := Success(code);
    }

    /** `VerifyCodeAsync`: read-only; false for an unknown id, otherwise exact equality of the codes. */
    method VerifyCode(id: int, code: string) returns (ok: bool)
      ensures ok <==> id in requests && requests[id].verificationCode == Some(code)
    {
      if id !in requests {
        return false;
      }
      ok := requests[id].verificationCode == Some(code);
    }
  }
}
