/**
 * PausableObservableCollection: an ObservableCollection whose change notifications can be paused.
 * Resuming announces a single Reset, so that views re-read the whole collection.
 *
 * The CPUSetSetter.UI namespace and the older CPUSetSetter namespace hold the same code, and this
 * one class models both. The base class appears as its Add and RemoveAt, which change the items
 * and then call OnCollectionChanged. The handlers of CollectionChanged appear as the list of
 * notifications raised.
 */
module PausableObservableCollection {
  import opened ConfigModels

  class PausableObservableCollection<T> {
    var items: seq<T>
    var suppressNotifications: bool
    /** The CollectionChanged notifications raised, in order. */
    var notifications: seq<CollectionAction>

    constructor ()
      ensures items == [] && !suppressNotifications && notifications == []
    {
      items := [];
      suppressNotifications := false;
      notifications := [];
    }

    /** SuppressNotifications: pause, or resume with one Reset. */
    method SuppressNotifications(suppress: bool)
      modifies this
      ensures suppressNotifications == suppress && items == old(items)
      ensures notifications == old(notifications) + (if suppress then [] else [Reset])
    {
      suppressNotifications := suppress;
      if !suppress {
        OnCollectionChanged(Reset);
      }
    }

    /** OnCollectionChanged: pass the change on unless paused. */
    method OnCollectionChanged(action: CollectionAction)
      modifies this
      ensures items == old(items) && suppressNotifications == old(suppressNotifications)
      ensures notifications == old(notifications) + (if suppressNotifications then [] else [action])
    {
      if !suppressNotifications {
        notifications := notifications + [action];
      }
    }

    /** Collection<T>.Add. */
    method Add(item: T)
      modifies this
      ensures items == old(items) + [item] && suppressNotifications == old(suppressNotifications)
      ensures notifications == old(notifications) + (if suppressNotifications then [] else [CollectionAction.Add])
    {
      items := items + [item];
      OnCollectionChanged(CollectionAction.Add);
    }

    /** Collection<T>.RemoveAt: an index outside the list throws ArgumentOutOfRangeException. */
    method RemoveAt(index: nat) returns (ok: bool)
      modifies this
      ensures ok <==> index < |old(items)|
      ensures ok ==> items == old(items)[..index] + old(items)[index + 1..]
      ensures !ok ==> items == old(items) && notifications == old(notifications)
      ensures suppressNotifications == old(suppressNotifications)
      ensures ok ==> notifications == old(notifications) + (if suppressNotifications then [] else [Remove])
    {
      if index >= |items| {
        return false;
      }
      items := items[..index] + items[index + 1..];
      OnCollectionChanged(Remove);
      return true;
    }
  }
}
