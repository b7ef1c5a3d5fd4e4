/**
 * The four-state value of a request: not asked yet, loading (possibly still holding the data of an
 * earlier request), failed with an error, or succeeded with data.
 *
 * The constructors carry the lower-case names of the Go state structs (`notAsked`, `loading`,
 * `failure`, `success`); the upper-case names are the exported tests and extractors. An absent
 * pointer (`nil`) is `None`.
 */
module Asyncdata {
  import opened Wrappers

  datatype AsyncData<+E, +A> =
    | notAsked
    | loading(prevData: Option<A>)
    | failure(error: E)
    | success(data: A)

  /** `NotAsked(ad)`: whether `ad` is in the initial state. */
  predicate NotAsked<E, A>(ad: AsyncData<E, A>)
  {
    ad.notAsked?
  }

  /** `Loading(ad)`: the previous data if there is any, whether there is, and whether `ad` is loading. */
  function Loading<E, A>(ad: AsyncData<E, A>): (r: (Option<A>, bool, bool))
    ensures r.2 <==> ad.loading?
    ensures r.1 <==> r.0.Some?
    ensures r.1 ==> r.2
    ensures ad.loading? ==> r.0 == ad.prevData
  {
    match ad
    case loading(prev) =>
      if prev.Some? then (prev, true, true) else (None, false, true)
    case _ => (None, false, false)
  }

  /** `Failure(ad)`: the error if `ad` failed, and whether it did. */
  function Failure<E, A>(ad: AsyncData<E, A>): (r: (Option<E>, bool))
    ensures r.1 <==> ad.failure?
    ensures r.1 <==> r.0.Some?
    ensures ad.failure? ==> r.0 == Some(ad.error)
  {
    match ad
    case failure(err) => (Some(err), true)
    case _ => (None, false)
  }

  /** `Success(ad)`: the data if `ad` succeeded, and whether it did. */
  function Success<E, A>(ad: AsyncData<E, A>): (r: (Option<A>, bool))
    ensures r.1 <==> ad.success?
    ensures r.1 <==> r.0.Some?
    ensures ad.success? ==> r.0 == Some(ad.data)
  {
    match ad
    case success(d) => (Some(d), true)
    case _ => (None, false)
  }

  /** The obvious meaning of the tests the other packages use. */
  predicate IsLoading<E, A>(ad: AsyncData<E, A>)
  {
    Loading(ad).2
  }

  predicate IsFailure<E, A>(ad: AsyncData<E, A>)
  {
    Failure(ad).1
  }

  predicate IsSuccess<E, A>(ad: AsyncData<E, A>)
  {
    Success(ad).1
  }

  /** A fresh initial value: only `NotAsked` reports it. */
  function NewNotAsked<E, A>(): (ad: AsyncData<E, A>)
    ensures NotAsked(ad)
    ensures !Loading(ad).2 && !Failure(ad).1 && !Success(ad).1
  {
    notAsked
  }

  /** A fresh loading value: only `Loading` reports it, and it hands back the previous data given. */
  function NewLoading<E, A>(prevData: Option<A>): (ad: AsyncData<E, A>)
    ensures Loading(ad) == (prevData, prevData.Some?, true)
    ensures !NotAsked(ad) && !Failure(ad).1 && !Success(ad).1
  {
    loading(prevData)
  }

  /** A fresh failure: only `Failure` reports it, and it hands back the error given. */
  function NewFailure<E, A>(err: E): (ad: AsyncData<E, A>)
    ensures Failure(ad) == (Some(err), true)
    ensures !NotAsked(ad) && !Loading(ad).2 && !Success(ad).1
  {
    failure(err)
  }

  /** A fresh success: only `Success` reports it, and it hands back the data given. */
  function NewSuccess<E, A>(data: A): (ad: AsyncData<E, A>)
    ensures Success(ad) == (Some(data), true)
    ensures !NotAsked(ad) && !Loading(ad).2 && !Failure(ad).1
  {
    success(data)
  }

  /** Applies `f` to the payload, keeping the state and the error. */
  function Map<E, A, B>(ad: AsyncData<E, A>, f: A -> B): (r: AsyncData<E, B>)
    ensures NotAsked(r) <==> NotAsked(ad)
    ensures Loading(r).2 <==> Loading(ad).2
    ensures Loading(r).1 <==> Loading(ad).1
    ensures Loading(ad).1 ==> Loading(r).0 == Some(f(Loading(ad).0.value))
    ensures Failure(r) == Failure(ad)
    ensures Success(r).1 <==> Success(ad).1
    ensures Success(ad).1 ==> Success(r).0 == Some(f(Success(ad).0.value))
  {
    match ad
    case notAsked => notAsked
    case loading(prev) =>
      if prev.Some? then loading(Some(f(prev.value))) else loading(None)
    case failure(err) => failure(err)
    case success(d) => success(f(d))
  }

  /** Calls the one handler that matches the state of `ad` and returns its result. */
  function FoldA<E, A, T>(
    ad: AsyncData<E, A>,
    onNotAsked: () -> T,
    onLoading: Option<A> -> T,
    onFailure: E -> T,
    onSuccess: A -> T
  ): (r: T)
    ensures NotAsked(ad) ==> r == onNotAsked()
    ensures Loading(ad).2 ==> r == onLoading(Loading(ad).0)
    ensures Failure(ad).1 ==> r == onFailure(Failure(ad).0.value)
    ensures Success(ad).1 ==> r == onSuccess(Success(ad).0.value)
  {
    match ad
    case notAsked => onNotAsked()
    case loading(prev) => onLoading(prev)
    case failure(err) => onFailure(err)
    case success(d) => onSuccess(d)
  }

  /** The state set is closed: every value answers exactly one of the four tests. */
  lemma ExactlyOneState<E, A>(ad: AsyncData<E, A>)
    ensures NotAsked(ad) || Loading(ad).2 || Failure(ad).1 || Success(ad).1
    ensures !(NotAsked(ad) && Loading(ad).2) && !(NotAsked(ad) && Failure(ad).1)
    ensures !(NotAsked(ad) && Success(ad).1) && !(Loading(ad).2 && Failure(ad).1)
    ensures !(Loading(ad).2 && Success(ad).1) && !(Failure(ad).1 && Success(ad).1)
  {
  }

  /** Mapping the identity gives back the same value. */
  lemma MapIdentity<E, A>(ad: AsyncData<E, A>)
    ensures Map(ad, (x: A) => x) == ad
  {
  }

  /** Mapping twice is mapping once with the composition. */
  lemma MapComposition<E, A, B, C>(ad: AsyncData<E, A>, f: A -> B, g: B -> C)
    ensures Map(Map(ad, f), g) == Map(ad, (x: A) => g(f(x)))
  {
  }

  /** Folding with the constructors as handlers rebuilds the value. */
  lemma FoldARebuilds<E, A>(ad: AsyncData<E, A>)
    ensures FoldA(ad, () => NewNotAsked(), (p: Option<A>) => NewLoading(p),
                  (e: E) => NewFailure(e), (a: A) => NewSuccess(a)) == ad
  {
  }

  /** Mapping and then folding is folding with handlers that apply the map first. */
  lemma FoldAAfterMap<E, A, B, T>(ad: AsyncData<E, A>, f: A -> B,
                                  onNotAsked: () -> T, onLoading: Option<B> -> T,
                                  onFailure: E -> T, onSuccess: B -> T)
    ensures FoldA(Map(ad, f), onNotAsked, onLoading, onFailure, onSuccess)
         == FoldA(ad, onNotAsked,
                  (p: Option<A>) => onLoading(if p.Some? then Some(f(p.value)) else None),
                  onFailure, (a: A) => onSuccess(f(a)))
  {
  }
}
