/**
 * The like store (app/src/lib/state/likeStore.ts): a map from URL hash to
 * `true`, changed by a reducer that always builds a new map.
 */
module Likes {
  type LikeState = map<string, bool>

  /** The payload of both like actions; only the URL hash is used by the reducer. */
  datatype LikePayload = LikePayload(urlHash: string, pk: string, sk: string)

  datatype LikeAction = Like(payload: LikePayload) | Unlike(payload: LikePayload) | Unknown

  /** `LikeReducer`. */
  function LikeReducer(state: LikeState, action: LikeAction): (r: LikeState)
    ensures action.Like? ==> r.Keys == state.Keys + {action.payload.urlHash} && r[action.payload.urlHash]
    ensures action.Unlike? ==> r.Keys == state.Keys - {action.payload.urlHash}
    ensures !action.Unknown? ==> forall h :: h in state && h != action.payload.urlHash ==> r[h] == state[h]
    ensures action.Unknown? ==> r == state
  {
    match action
    case Like(p) => state[p.urlHash := true]
    case Unlike(p) => state - {p.urlHash}
    case Unknown => state
  }

  /** Liking twice is liking once. */
  lemma LikeIdempotent(state: LikeState, p: LikePayload)
    ensures LikeReducer(LikeReducer(state, Like(p)), Like(p)) == LikeReducer(state, Like(p))
  {
  }

  /** Unliking right after liking a hash that was not liked restores the store. */
  lemma UnlikeUndoesLike(state: LikeState, p: LikePayload, q: LikePayload)
    requires p.urlHash !in state && q.urlHash == p.urlHash
    ensures LikeReducer(LikeReducer(state, Like(p)), Unlike(q)) == state
  {
  }
}
