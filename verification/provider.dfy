/**
 * The vendor messaging SDK seen from the plugin: the requests the plugin
 * issues to it, and the event-observer registry those requests act on.
 * The SDK's own behaviour is not modelled; its answers reach the plugin as
 * the platform-specific result and event datatypes.
 */
module Provider {

  /** Identity of a native plugin object (a `ZendeskMessaging` instance). */
  type ObjId = nat

  datatype User = User(id: string, externalId: string)

  /** One request from the plugin to the SDK, in the order issued. */
  datatype ProviderCall =
    | SdkInitialize(channelKey: string, owner: ObjId)
    | SdkInvalidate
    | AddObserver(observer: ObjId)
    | RemoveObserver(observer: ObjId)
    | ShowMessaging
    | SdkLoginUser(jwt: string)
    | SdkLogoutUser
    | QueryUnreadCount
    | SetConversationTags(tags: seq<string>)
    | ClearConversationTags
    | SetConversationFields(fields: map<string, string>)
    | ClearConversationFields

  /** The SDK's event observers: how many registrations each owner holds. */
  type Registry = multiset<ObjId>

  /** Does `c` add or remove a registration of owner `o`? */
  predicate Touches(c: ProviderCall, o: ObjId) {
    (c.AddObserver? || c.RemoveObserver?) && c.observer == o
  }

  /** No call of `calls` adds or removes a registration of owner `o`. */
  predicate Untouched(calls: seq<ProviderCall>, o: ObjId) {
    forall i | 0 <= i < |calls| :: !Touches(calls[i], o)
  }

  /** No call of `calls` adds a registration of owner `o`. */
  predicate NeverAdds(calls: seq<ProviderCall>, o: ObjId) {
    forall i | 0 <= i < |calls| :: !(calls[i].AddObserver? && calls[i].observer == o)
  }

  /**
   * The registry after one call. Registrations are keyed by owner identity:
   * adding registers the owner once more, removing drops every registration
   * of that owner and no other.
   */
  function Apply(reg: Registry, c: ProviderCall): (r: Registry)
    ensures forall o | !Touches(c, o) :: r[o] == reg[o]
    ensures c.AddObserver? ==> r[c.observer] == reg[c.observer] + 1
    ensures c.RemoveObserver? ==> r[c.observer] == 0
  {
    match c
    case AddObserver(o) => reg + multiset{o}
    case RemoveObserver(o) => reg[o := 0]
    case _ => reg
  }

  /** The registry after a sequence of calls, applied in order. */
  function Register(reg: Registry, calls: seq<ProviderCall>): (r: Registry)
    ensures forall o | Untouched(calls, o) :: r[o] == reg[o]
    ensures forall o | NeverAdds(calls, o) :: r[o] <= reg[o]
    ensures |r| <= |reg| + |calls|
    decreases |calls|
  {
    if calls == [] then reg
    else
      var next := Apply(reg, calls[0]);
      assert |next| <= |reg| + 1 by {
        if calls[0].RemoveObserver? {
          assert next <= reg;
        }
      }
      assert forall o | Untouched(calls, o) :: Untouched(calls[1..], o) && next[o] == reg[o] by {
        forall o | Untouched(calls, o) ensures Untouched(calls[1..], o) && next[o] == reg[o] {
          assert !Touches(calls[0], o);
          forall i | 0 <= i < |calls[1..]| ensures !Touches(calls[1..][i], o) {
            assert calls[1..][i] == calls[i + 1];
          }
        }
      }
      assert forall o | NeverAdds(calls, o) :: NeverAdds(calls[1..], o) && next[o] <= reg[o] by {
        forall o | NeverAdds(calls, o) ensures NeverAdds(calls[1..], o) && next[o] <= reg[o] {
          assert !(calls[0].AddObserver? && calls[0].observer == o);
          forall i | 0 <= i < |calls[1..]| ensures !(calls[1..][i].AddObserver? && calls[1..][i].observer == o) {
            assert calls[1..][i] == calls[i + 1];
          }
        }
      }
      Register(next, calls[1..])
  }

  /** One call on its own acts as `Apply`. */
  lemma RegisterSingle(reg: Registry, c: ProviderCall)
    ensures Register(reg, [c]) == Apply(reg, c)
  {
    assert [c][1..] == [];
  }

  /** Two calls act as `Apply` twice, in order. */
  lemma RegisterPair(reg: Registry, c: ProviderCall, d: ProviderCall)
    ensures Register(reg, [c, d]) == Apply(Apply(reg, c), d)
  {
    assert [c, d][1..] == [d];
    RegisterSingle(Apply(reg, c), d);
  }
}
