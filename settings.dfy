/**
 * The settings screen: the record of boolean settings, its update and reset,
 * and the rows that display and toggle them.
 */
module Settings {

  /** The keys of the settings record. */
  datatype Key =
    | PushNotifications | EmailNotifications | SmsNotifications | LocationServices
    | BiometricLogin | AutoBackup | DarkMode | SoundEffects | Vibration | DataSaver
    | Analytics | MarketingEmails

  /** The record the screen starts with. */
  const InitialSettings: map<Key, bool> := map[
    PushNotifications := true, EmailNotifications := true, SmsNotifications := false,
    LocationServices := true, BiometricLogin := false, AutoBackup := true,
    DarkMode := false, SoundEffects := true, Vibration := true, DataSaver := false,
    Analytics := true, MarketingEmails := false]

  /** The record the reset button writes, spelled out separately in the screen. */
  const ResetValues: map<Key, bool> := map[
    PushNotifications := true, EmailNotifications := true, SmsNotifications := false,
    LocationServices := true, BiometricLogin := false, AutoBackup := true,
    DarkMode := false, SoundEffects := true, Vibration := true, DataSaver := false,
    Analytics := true, MarketingEmails := false]

  /** Every key has a value. */
  predicate Complete(s: map<Key, bool>) {
    forall k: Key :: k in s
  }

  /** Reset restores exactly the initial record, which holds every key. */
  lemma ResetIsInitial()
    ensures ResetValues == InitialSettings
    ensures Complete(InitialSettings)
  {
    forall k: Key
      ensures k in InitialSettings
    {
      match k {
        case PushNotifications =>
        case EmailNotifications =>
        case SmsNotifications =>
        case LocationServices =>
        case BiometricLogin =>
        case AutoBackup =>
        case DarkMode =>
        case SoundEffects =>
        case Vibration =>
        case DataSaver =>
        case Analytics =>
        case MarketingEmails =>
      }
    }
  }

  /** `updateSetting(k, v)`: `k` becomes `v`, every other setting is unchanged. */
  function Update(s: map<Key, bool>, k: Key, v: bool): (r: map<Key, bool>)
    requires Complete(s)
    ensures Complete(r) && r[k] == v
    ensures forall j :: j != k ==> r[j] == s[j]
  {
    s[k := v]
  }

  /** A row's kind decides its right-hand control and whether the row itself is pressable. */
  datatype RowKind = Navigation | Toggle | Action

  /** What a row's switch shows and changes: a setting, or a fixed value with a toggle that does nothing. */
  datatype Binding = Bound(key: Key) | Fixed(value: bool) | Unbound

  datatype Row = Row(id: string, title: string, kind: RowKind, binding: Binding)

  /** All rows of the screen, section by section. */
  const AllRows: seq<Row> := [
    Row("1", "Account Settings", Navigation, Unbound),
    Row("2", "Privacy Settings", Navigation, Unbound),
    Row("3", "Security Settings", Navigation, Unbound),
    Row("4", "Language", Navigation, Unbound),
    Row("5", "Currency", Navigation, Unbound),
    Row("6", "Push Notifications", Toggle, Bound(PushNotifications)),
    Row("7", "Email Notifications", Toggle, Bound(EmailNotifications)),
    Row("8", "SMS Notifications", Toggle, Bound(SmsNotifications)),
    Row("9", "Booking Reminders", Toggle, Fixed(true)),
    Row("10", "Payment Alerts", Toggle, Fixed(true)),
    Row("11", "Location Services", Toggle, Bound(LocationServices)),
    Row("12", "Biometric Login", Toggle, Bound(BiometricLogin)),
    Row("13", "Auto Backup", Toggle, Bound(AutoBackup)),
    Row("14", "Dark Mode", Toggle, Bound(DarkMode)),
    Row("15", "Sound Effects", Toggle, Bound(SoundEffects)),
    Row("16", "Vibration", Toggle, Bound(Vibration)),
    Row("17", "Data Saver", Toggle, Bound(DataSaver)),
    Row("18", "Analytics", Toggle, Bound(Analytics)),
    Row("19", "Marketing Emails", Toggle, Bound(MarketingEmails)),
    Row("20", "Clear Cache", Action, Unbound),
    Row("21", "Export Data", Action, Unbound)
  ]

  /** The General, Notifications, App and Data sections. */
  const GeneralRows := AllRows[..5]
  const NotificationRows := AllRows[5..10]
  const AppRows := AllRows[10..17]
  const DataRows := AllRows[17..]

  /** The row is pressable: only navigation and action rows get a press handler. */
  predicate HasPressHandler(row: Row) {
    row.kind == Navigation || row.kind == Action
  }

  /** The value a toggle row's switch shows. */
  function Shown(row: Row, s: map<Key, bool>): bool
    requires Complete(s)
  {
    match row.binding
    case Bound(k) => s[k]
    case Fixed(v) => v
    case Unbound => false
  }

  /** The settings after the row's switch is flipped to `v`. */
  function Toggled(row: Row, s: map<Key, bool>, v: bool): (r: map<Key, bool>)
    requires Complete(s)
    ensures Complete(r)
    ensures row.binding.Bound? ==> r == Update(s, row.binding.key, v)
    ensures !row.binding.Bound? ==> r == s
  {
    match row.binding
    case Bound(k) => Update(s, k, v)
    case _ => s
  }

  /** The position of the row whose switch is bound to `k`. */
  function KeyRow(k: Key): nat {
    match k
    case PushNotifications => 5
    case EmailNotifications => 6
    case SmsNotifications => 7
    case LocationServices => 10
    case BiometricLogin => 11
    case AutoBackup => 12
    case DarkMode => 13
    case SoundEffects => 14
    case Vibration => 15
    case DataSaver => 16
    case Analytics => 17
    case MarketingEmails => 18
  }

  /** Toggle rows carry a switch and get no press handler; navigation and action rows the reverse. */
  lemma RowsLayout()
    ensures |AllRows| == 21
    ensures forall i :: 0 <= i < |AllRows| ==> (HasPressHandler(AllRows[i]) <==> AllRows[i].kind != Toggle)
    ensures forall i :: 0 <= i < |AllRows| ==> (AllRows[i].kind == Toggle <==> !AllRows[i].binding.Unbound?)
  {
  }

  /** Every setting has a switch: the row at `KeyRow(k)`. */
  lemma EachKeyHasSwitch(k: Key)
    ensures KeyRow(k) < |AllRows| && AllRows[KeyRow(k)].binding == Bound(k)
  {
  }

  /** No setting has a second switch. */
  lemma NoKeyHasTwoSwitches(i: nat)
    requires i < |AllRows| && AllRows[i].binding.Bound?
    ensures i == KeyRow(AllRows[i].binding.key)
  {
  }

  /** Booking Reminders and Payment Alerts always show on, and flipping them changes nothing. */
  lemma FixedTogglesAreInert(s: map<Key, bool>, v: bool)
    requires Complete(s)
    ensures NotificationRows[3].title == "Booking Reminders" && NotificationRows[4].title == "Payment Alerts"
    ensures Shown(NotificationRows[3], s) && Shown(NotificationRows[4], s)
    ensures Toggled(NotificationRows[3], s, v) == s && Toggled(NotificationRows[4], s, v) == s
  {
  }

  /** The screen's state. */
  class SettingsScreen {
    var settings: map<Key, bool>

    predicate Valid()
      reads this
    {
      Complete(settings)
    }

    constructor ()
      ensures settings == InitialSettings && Valid()
    {
      settings := InitialSettings;
      ResetIsInitial();
    }

    method UpdateSetting(k: Key, v: bool)
      requires Valid()
      modifies this
      ensures Valid()
      ensures settings == Update(old(settings), k, v)
    {
      settings := settings[k := v];
    }

    /** A switch flipped on `row`. */
    method ToggleRow(row: Row, v: bool)
      requires Valid()
      modifies this
      ensures Valid()
      ensures settings == Toggled(row, old(settings), v)
    {
      if row.binding.Bound? {
        UpdateSetting(row.binding.key, v);
      }
    }

    /** Reset confirmed in the alert: the initial record is back. */
    method ResetSettings()
      modifies this
      ensures Valid()
      ensures settings == InitialSettings
    {
      settings := ResetValues;
      ResetIsInitial();
    }
  }
}
