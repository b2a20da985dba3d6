/**
 * The favourite toggle of a resource card: on mount it asks whether the resource is
 * a favourite of the signed-in user, and a click adds or removes it, updating the
 * icon only once the service has answered.
 */
module ResourceCard {
  import opened Wrappers
  import opened Catalog

  /** The call a click makes on the favourites service. */
  datatype FavCall = NoCall | Add(id: Option<int>) | Remove(id: Option<int>)

  /** The alert a click shows. */
  datatype Notice = NoNotice | LoginRequired | UpdateFailed

  /** A session exists: the token is present and not empty. */
  predicate SignedIn(token: Option<string>) {
    Truthy(token)
  }

  /** The favourite flag after a click: it flips exactly when signed in and the call succeeds. */
  function FlagAfterClick(favorito: bool, signedIn: bool, succeeded: bool): (r: bool)
    ensures r != favorito <==> signedIn && succeeded
  {
    if signedIn && succeeded then !favorito else favorito
  }

  /** Two successful clicks restore the flag. */
  lemma ClickTwiceRestores(favorito: bool)
    ensures FlagAfterClick(FlagAfterClick(favorito, true, true), true, true) == favorito
  {
  }

  /** The toggle's state for one card. */
  class FavoriteToggle {
    const idrecurso: Option<int>
    var esFavorito: bool

    /** A card for the resource `idrecurso`; the icon starts as not a favourite. */
    constructor (idrecurso: Option<int>)
      ensures this.idrecurso == idrecurso && !esFavorito
    {
      this.idrecurso := idrecurso;
      esFavorito := false;
    }

    /**
     * The mount effect: with a session and a resource id, asks the service; a
     * success sets the flag to its answer, a failure leaves it. Returns whether the
     * service was asked.
     */
    method CheckOnMount(token: Option<string>, response: Outcome<bool>) returns (asked: bool)
      modifies this
      ensures asked <==> SignedIn(token) && idrecurso.Some?
      ensures esFavorito == (if asked && response.Success? then response.value else old(esFavorito))
    {
      asked := false;
      if !SignedIn(token) || idrecurso.None? {
        return;
      }
      asked := true;
      if response.Success? {
        esFavorito := response.value;
      }
    }

    /**
     * `manejarFavorito`: without a session an alert and no call; otherwise removes a
     * favourite or adds a non-favourite, and flips the flag only when the call succeeds.
     */
    method Click(token: Option<string>, response: Outcome<()>) returns (call: FavCall, notice: Notice)
      modifies this
      ensures !SignedIn(token) ==> call == NoCall && notice == LoginRequired
      ensures SignedIn(token) ==> call == (if old(esFavorito) then Remove(idrecurso) else Add(idrecurso))
      ensures SignedIn(token) ==> notice == (if response.Success? then NoNotice else UpdateFailed)
      ensures esFavorito == FlagAfterClick(old(esFavorito), SignedIn(token), response.Success?)
    {
      if !SignedIn(token) {
        return NoCall, LoginRequired;
      }
      call := if esFavorito then Remove(idrecurso) else Add(idrecurso);
      notice := NoNotice;
      if response.Success? {
        esFavorito := !esFavorito;
      } else {
        notice := UpdateFailed;
      }
    }
  }
}
