/** Resolution of the origin of an inbound message event. */
module Origin {
  import opened Wrappers
  import opened Dom

  /**
   * The origin of `e`, from the strongest source available: the HTML5
   * `origin` field, else the origin of the legacy `uri` field, else the
   * legacy `domain` field under the LOCAL page's scheme (which is wrong
   * whenever the peer uses another scheme). With none of the three present
   * it throws.
   */
  function GetOrigin(e: MessageEvent, getLocation: string -> string, protocol: string): (r: Result<string, Error>)
    ensures r.Failure? <==> !Truthy(e.origin) && !Truthy(e.uri) && !Truthy(e.domain)
    ensures r.Failure? ==> r.error == OriginUnavailable
    ensures Truthy(e.origin) ==> r == Success(e.origin.value)
    ensures !Truthy(e.origin) && Truthy(e.uri) ==> r == Success(getLocation(e.uri.value))
    ensures !Truthy(e.origin) && !Truthy(e.uri) && Truthy(e.domain) ==>
              r == Success(protocol + "//" + e.domain.value)
  {
    if Truthy(e.origin) then Success(e.origin.value)
    else if Truthy(e.uri) then Success(getLocation(e.uri.value))
    else if Truthy(e.domain) then Success(protocol + "//" + e.domain.value)
    else Failure(OriginUnavailable)
  }

  /**
   * Precedence: the result depends only on the strongest field present, so
   * two events that agree on it resolve alike whatever their weaker fields say.
   */
  lemma StrongestFieldDecides(e1: MessageEvent, e2: MessageEvent, getLocation: string -> string, protocol: string)
    requires e1.origin == e2.origin
    requires !Truthy(e1.origin) ==> e1.uri == e2.uri
    requires !Truthy(e1.origin) && !Truthy(e1.uri) ==> e1.domain == e2.domain
    ensures GetOrigin(e1, getLocation, protocol) == GetOrigin(e2, getLocation, protocol)
  {
  }
}
