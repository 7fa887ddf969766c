/** The REST controller for proposals: request gatekeeping in front of the
    proposal service. The service is represented by the calls made on it and,
    where the controller uses an answer, by that answer as a parameter. */
module Controllers {
  import opened Wrappers
  import opened Model

  /** A proposal as the API reads and writes it; Integer fields are nullable. */
  datatype ProposalDto = ProposalDto(id: Option<int>, freelancerId: Option<int>, taskId: Option<int>)

  /** A proposal to be created, before it has an id. */
  datatype ProposalCreationDto = ProposalCreationDto(freelancerId: Option<int>, taskId: Option<int>)

  /** The responses the endpoints build. */
  datatype Response =
    | OkWith(body: ProposalDto)
    | CreatedAt(id: int)
    | NoContent
    | BadRequest
    | Forbidden
    | NotFound

  function StatusCode(r: Response): int {
    match r
    case OkWith(_) => 200
    case CreatedAt(_) => 201
    case NoContent => 204
    case BadRequest => 400
    case Forbidden => 403
    case NotFound => 404
  }

  /** A call on the proposal service. A mapped proposal is named by the DTO it
      is mapped from. */
  datatype ServiceCall =
    | FindProposal(id: int)
    | UpdateProposal(dto: ProposalDto)
    | SaveProposal(creation: ProposalCreationDto)
    | DeleteProposal(id: int)

  /** The response and the service calls made to produce it, in order. */
  datatype Handled = Handled(response: Response, calls: seq<ServiceCall>)

  /** `getId().equals(id)` on a null body id throws. */
  datatype ControllerError = NullProposalId

  /** `Integer.equals`: a null argument is never equal. */
  function IdEquals(id: int, other: Option<int>): bool {
    match other
    case None => false
    case Some(o) => id == o
  }

  /** hasUserAccess(ProposalDTO, auth): the principal is an admin or the
      proposal's freelancer. */
  function HasUserAccess(dto: ProposalDto, principal: User): (r: bool)
    ensures r <==> IsAdmin(principal) || dto.freelancerId == Some(principal.id)
  {
    IsAdmin(principal) || IdEquals(principal.id, dto.freelancerId)
  }

  /** hasUserAccess(ProposalCreationDTO, auth): the same rule for a new proposal. */
  function HasCreationAccess(dto: ProposalCreationDto, principal: User): (r: bool)
    ensures r <==> IsAdmin(principal) || dto.freelancerId == Some(principal.id)
  {
    IsAdmin(principal) || IdEquals(principal.id, dto.freelancerId)
  }

  /** GET /{id}: 200 with the mapped DTO when the service finds the proposal,
      404 otherwise. `found` is the service's answer, `toDto` the mapper. */
  function FindById(id: int, found: Option<Proposal>, toDto: Proposal -> ProposalDto): (r: Handled)
    ensures r.calls == [FindProposal(id)]
    ensures found.None? <==> r.response == NotFound
    ensures found.Some? ==> r.response == OkWith(toDto(found.value))
    ensures StatusCode(r.response) in {200, 404}
  {
    Handled(if found.Some? then OkWith(toDto(found.value)) else NotFound, [FindProposal(id)])
  }

  /** PUT /{id}: the ids must match (400), then the principal needs access
      (403); only then is the service asked to update (204). */
  function Update(id: int, dto: ProposalDto, principal: User): (r: Result<Handled, ControllerError>)
    ensures r.Err? <==> dto.id.None?
    ensures r.Ok? ==> StatusCode(r.value.response) in {204, 400, 403}
    ensures r.Ok? ==> (r.value.response == BadRequest <==> dto.id != Some(id))
    ensures r.Ok? ==> (r.value.response == Forbidden <==> dto.id == Some(id) && !HasUserAccess(dto, principal))
    ensures r.Ok? ==> (r.value.calls != [] <==> r.value.response == NoContent)
    ensures r.Ok? && r.value.calls != [] ==> r.value.calls == [UpdateProposal(dto)]
  {
    match dto.id
    case None => Err(NullProposalId)
    case Some(bodyId) =>
      if bodyId != id then Ok(Handled(BadRequest, []))
      else if !HasUserAccess(dto, principal) then Ok(Handled(Forbidden, []))
      else Ok(Handled(NoContent, [UpdateProposal(dto)]))
  }

  /** POST: without access 403 and nothing saved; with access the proposal is
      saved once and 201 points at the id the service gave it (`savedId`). */
  function Save(dto: ProposalCreationDto, principal: User, savedId: int): (r: Handled)
    ensures StatusCode(r.response) in {201, 403}
    ensures r.response == Forbidden <==> !HasCreationAccess(dto, principal)
    ensures r.response == Forbidden ==> r.calls == []
    ensures r.response != Forbidden ==> r.response == CreatedAt(savedId) && r.calls == [SaveProposal(dto)]
  {
    if !HasCreationAccess(dto, principal) then Handled(Forbidden, [])
    else Handled(CreatedAt(savedId), [SaveProposal(dto)])
  }

  /** DELETE /{id}: 204 iff the service reports a deletion (`deleted`), else 404. */
  function Delete(id: int, deleted: bool): (r: Handled)
    ensures r.calls == [DeleteProposal(id)]
    ensures r.response == NoContent <==> deleted
    ensures r.response == NotFound <==> !deleted
  {
    Handled(if deleted then NoContent else NotFound, [DeleteProposal(id)])
  }

  /** A mismatched id is refused with 400 whoever asks, before access is
      considered, and the service is not called. */
  lemma UpdateChecksIdBeforeAccess(id: int, dto: ProposalDto, principal: User)
    requires dto.id.Some? && dto.id.value != id
    ensures Update(id, dto, principal) == Ok(Handled(BadRequest, []))
  {
  }

  /** The service's update is called exactly when the ids match and the
      principal has access, and then exactly once. */
  lemma UpdateCallsServiceIffAllowed(id: int, dto: ProposalDto, principal: User)
    requires dto.id.Some?
    ensures var calls := Update(id, dto, principal).value.calls;
      (|calls| == 1 <==> dto.id == Some(id) && HasUserAccess(dto, principal)) && |calls| <= 1
  {
  }
}
