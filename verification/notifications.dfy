/** The notification preferences: five switches, each flipped on its own. */
module NotificationsScreen {

  datatype Key = PushEnabled | OrderUpdates | Promotions | NewProducts | PriceAlerts

  datatype Settings = Settings(pushEnabled: bool, orderUpdates: bool, promotions: bool, newProducts: bool, priceAlerts: bool)

  const InitialSettings := Settings(true, true, false, true, true)

  /** `settings[key]`. */
  function Get(s: Settings, k: Key): bool {
    match k
    case PushEnabled => s.pushEnabled
    case OrderUpdates => s.orderUpdates
    case Promotions => s.promotions
    case NewProducts => s.newProducts
    case PriceAlerts => s.priceAlerts
  }

  /** `toggleSetting(key)`: `{...prev, [key]: !prev[key]}`. */
  function ToggleSetting(s: Settings, k: Key): (r: Settings)
    ensures Get(r, k) == !Get(s, k)
    ensures forall other :: other != k ==> Get(r, other) == Get(s, other)
  {
    match k
    case PushEnabled => s.(pushEnabled := !s.pushEnabled)
    case OrderUpdates => s.(orderUpdates := !s.orderUpdates)
    case Promotions => s.(promotions := !s.promotions)
    case NewProducts => s.(newProducts := !s.newProducts)
    case PriceAlerts => s.(priceAlerts := !s.priceAlerts)
  }

  /** Two records that agree on every key are the same record. */
  lemma Extensionality(a: Settings, b: Settings)
    requires forall k :: Get(a, k) == Get(b, k)
    ensures a == b
  {
    assert Get(a, PushEnabled) == Get(b, PushEnabled);
    assert Get(a, OrderUpdates) == Get(b, OrderUpdates);
    assert Get(a, Promotions) == Get(b, Promotions);
    assert Get(a, NewProducts) == Get(b, NewProducts);
    assert Get(a, PriceAlerts) == Get(b, PriceAlerts);
  }

  /** Toggling the same key twice restores the settings. */
  lemma ToggleTwice(s: Settings, k: Key)
    ensures ToggleSetting(ToggleSetting(s, k), k) == s
  {
    var r := ToggleSetting(ToggleSetting(s, k), k);
    forall other
      ensures Get(r, other) == Get(s, other)
    {
      if other != k {
        assert Get(ToggleSetting(s, k), other) == Get(s, other);
      }
    }
    Extensionality(r, s);
  }

  /** Initially promotions is off and every other key is on. */
  lemma InitialValues()
    ensures !Get(InitialSettings, Promotions)
    ensures forall k :: k != Promotions ==> Get(InitialSettings, k)
  {
  }
}
