/** The domain entities the modelled code passes around: cats and their
    breeds, the card the user enters and the security token a payment yields. */
module Entities {
  datatype Breed = Breed(id: string, name: string, temperament: string, origin: string,
                         description: string, lifeSpan: string)

  /** A cat of the feed; favorites and the feed identify cats by `id`. */
  datatype Cat = Cat(id: string, url: string, breeds: seq<Breed>)

  /** `CreditCard` (src/domain/entities/Payment.ts). */
  datatype CreditCard = CreditCard(cardNumber: string, cvv: string, expirationDate: string, cardHolder: string)

  /** `SecurityToken`: the opaque access token and its creation time in
      milliseconds since the epoch. */
  datatype SecurityToken = SecurityToken(accessToken: string, createdAt: int)

  /** The ids of a list of cats, in order. */
  function Ids(cats: seq<Cat>): (ids: seq<string>)
    ensures |ids| == |cats|
    ensures forall i :: 0 <= i < |cats| ==> ids[i] == cats[i].id
  {
    if cats == [] then [] else [cats[0].id] + Ids(cats[1..])
  }

  /** No two cats of the list share an id. */
  predicate UniqueIds(cats: seq<Cat>) {
    forall i, j :: 0 <= i < j < |cats| ==> cats[i].id != cats[j].id
  }

  /** `cats.some(c => c.id === id)`. */
  predicate HasId(cats: seq<Cat>, id: string) {
    exists i :: 0 <= i < |cats| && cats[i].id == id
  }
}
