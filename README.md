# BaldPhone core, modelled in Dafny

BaldPhone is an Android launcher for elderly users. This project models five of
its classes and proves properties of them:

- **NotificationListenerService** (`notification_listener.dfy`, module
  `NotificationListener`). It tracks the telephony call state and reports
  incoming, ongoing and missed calls. It mirrors the active notifications to the
  one registered screen: a detailed list of Bundles for the notifications screen,
  or a count and package list for the home screen. It also handles the local
  broadcasts that register a screen, cancel one notification, or cancel the
  missed-call notifications.
- **ContactRecyclerViewAdapter** (`contact_list.dfy`, module `ContactList`). It
  builds a letter index over the contacts cursor (first letter of a display name
  mapped to the position where that letter's run starts). It decides which rows
  show a section letter, and models the row holder's expanded/favorite state and
  click dispatch.
- **ViewPagerHolder** (`pager_navigation.dfy`, module `PagerNavigation`). It
  models the previous/next arrows that move a ViewPager one page within its
  bounds. It also covers the handler that shows an arrow only when it can move,
  and the "page n of m" indicator text.
- **HomePage2** (`home_page.dfy`, module `HomePage`). It models the "abstract
  opener" buttons. These remove duplicate packages from the activities that can
  view a URI, keeping the first activity of each package. The result is a
  drop-down, a direct launch, or an error. The page's apps button is modelled too.
- **BDB** (`dialog_builder.dfy`, module `DialogBuilder`). This is the dialog
  builder: a mutable record filled by chained setters. The setters for buttons,
  input and options OR a flag into a flag word.

Support modules: `wrappers.dfy` holds `Option`, which stands for a nullable Java
reference, and `Result`, which stands for a call that may throw.
`decimal.dfy` models Java's decimal rendering of an `int`, with a proved
read-back and injectivity.

Android platform calls are parameters of the model. What
`getActiveNotifications()` returns is a parameter `active`, which is `None` when
the call returns null or throws `SecurityException`. The PackageManager's
application labels are a map, the package manager's query result is a
sequence, and the packages that have a launcher activity (those for which
`getLaunchIntentForPackage` is not null) are a set. What the code hands back to the platform is recorded in ghost logs:
call events, broadcasts sent, notification keys cancelled, and activities started.

## Model

| member | source | states |
|---|---|---|
| NotificationListener.NumberForLog | app/src/main/java/com/bald/uriah/baldphone/services/NotificationListenerService.java:152-155 | The reported caller is never empty: the number when present and non-empty, otherwise "unknown_number". |
| NotificationListener.CallStep | app/src/main/java/com/bald/uriah/baldphone/services/NotificationListenerService.java:165-188 | After one callback the phone counts as ringing iff the state is RINGING. RINGING reports IncomingCall and OFFHOOK reports CallOngoing, each with the logged caller and the dialer. IDLE reports a missed call, with the logged caller and the dialer, iff the phone was ringing, and nothing otherwise. Any other state reports nothing. |
| NotificationListener.MissedCallIffRingingThenIdle | app/src/main/java/com/bald/uriah/baldphone/services/NotificationListenerService.java:165-188 | From the initial state, over any callback sequence, the missed calls reported are exactly the RINGING callbacks immediately followed by IDLE, in order. The caller is the one the IDLE callback carries. |
| NotificationListener.TrackRingingFlag | app/src/main/java/com/bald/uriah/baldphone/services/NotificationListenerService.java:165-188 | After a non-empty callback sequence, the ringing flag is set iff the last callback was RINGING. |
| NotificationListener.MissedCallersAppend | app/src/main/java/com/bald/uriah/baldphone/services/NotificationListenerService.java:176-180 | The missed-call reports of two event logs joined are the reports of each, in order. |
| NotificationListener.CallStateToString | app/src/main/java/com/bald/uriah/baldphone/services/NotificationListenerService.java:481-488 | IDLE, RINGING and OFFHOOK log by their names. Any other state logs as "UNKNOWN_STATE_" followed by more text. |
| NotificationListener.UnknownStateNameReadsBack | app/src/main/java/com/bald/uriah/baldphone/services/NotificationListenerService.java:481-488 | For an unnamed state, the text after "UNKNOWN_STATE_" is a decimal numeral that reads back as the state. |
| NotificationListener.CallStateToStringInjective | app/src/main/java/com/bald/uriah/baldphone/services/NotificationListenerService.java:481-488 | Two call states with the same logging name are equal. This covers the three named states and the "UNKNOWN_STATE_" + number fallback. |
| NotificationListener.GetAppNameFromPackage | app/src/main/java/com/bald/uriah/baldphone/services/NotificationListenerService.java:441-451 | A null package gives "(unknown)". A package without a label (NameNotFoundException) gives "(unknown)". Otherwise the result is the same label lookup the detailed relay does. |
| NotificationListener.DetailedProjectionFields | app/src/main/java/com/bald/uriah/baldphone/services/NotificationListenerService.java:373-410 | Each Bundle carries its notification's key and package. It is clearable iff FLAG_NO_CLEAR is unset and a summary iff FLAG_GROUP_SUMMARY is set. Its app name is "(unknown)" when the package has no label. |
| NotificationListener.ProjectionsAgree | app/src/main/java/com/bald/uriah/baldphone/services/NotificationListenerService.java:357-439 | The home-screen summary and the detailed list describe the same notifications: the amount equals the number of Bundles, with the same packages in the same order. |
| NotificationListener.RelayFor | app/src/main/java/com/bald/uriah/baldphone/services/NotificationListenerService.java:330-355 | One relay sends at most one broadcast. It sends one iff the service is listening, the query succeeded and the registered screen is one of the two screens. The broadcast's kind matches the screen: the notifications screen gets the detailed Bundles of the active notifications, and the home screen gets their count and package list. |
| NotificationListener.BuildNotificationBundles | app/src/main/java/com/bald/uriah/baldphone/services/NotificationListenerService.java:359-411 | The loop fills the Bundle array with the detailed projection of the active notifications, index for index. |
| NotificationListener.BuildPackageList | app/src/main/java/com/bald/uriah/baldphone/services/NotificationListenerService.java:424-428 | The loop collects the active notifications' package names in order, keeping duplicates. |
| NotificationListener.MissedCallKeysExact | app/src/main/java/com/bald/uriah/baldphone/services/NotificationListenerService.java:457-464 | The cleanup cancels a key iff some active notification with that key has category "missed_call" and neither FLAG_NO_CLEAR nor FLAG_ONGOING_EVENT. |
| NotificationListener.MissedCallKeysBounded | app/src/main/java/com/bald/uriah/baldphone/services/NotificationListenerService.java:457-478 | The cleanup cancels at most one key per active notification. |
| NotificationListener.ClearableIsWeakerThanCancellable | app/src/main/java/com/bald/uriah/baldphone/services/NotificationListenerService.java:404-405 | Every missed call the cleanup would cancel is shown as clearable. An ongoing missed-call notification is shown as clearable, yet the cleanup spares it (lines 462-463). |
| NotificationListener.ParseBroadcast | app/src/main/java/com/bald/uriah/baldphone/services/NotificationListenerService.java:82-115 | A null Intent, a null action or an unknown action is ignored. ACTION_REGISTER_ACTIVITY, ACTION_CLEAR and ACTION_CLEAR_MISSED_CALLS, and only they, give registration, clear and missed-call cleanup respectively. Registration takes the activity extra, defaulting to ACTIVITY_NONE. Clear takes the key extra. |
| NotificationListener.NotificationListenerService.constructor | app/src/main/java/com/bald/uriah/baldphone/services/NotificationListenerService.java:68-76 | A new service has no registered screen, is not listening or ringing, and has empty logs. |
| NotificationListener.NotificationListenerService.OnCallStateChanged | app/src/main/java/com/bald/uriah/baldphone/services/NotificationListenerService.java:150-193 | The ringing flag and the event log advance exactly as CallStep says, so the service reports the missed calls MissedCallIffRingingThenIdle characterises. |
| NotificationListener.NotificationListenerService.SendBroadcastToActivity | app/src/main/java/com/bald/uriah/baldphone/services/NotificationListenerService.java:330-355 | Appends exactly what RelayFor specifies to the broadcast log. |
| NotificationListener.NotificationListenerService.SendBroadcastToNotificationsActivity | app/src/main/java/com/bald/uriah/baldphone/services/NotificationListenerService.java:357-420 | Sends the detailed projection, or nothing when the query fails. |
| NotificationListener.NotificationListenerService.SendBroadcastToHomeScreenActivity | app/src/main/java/com/bald/uriah/baldphone/services/NotificationListenerService.java:422-439 | Sends the count and package list, or nothing when the query fails. |
| NotificationListener.NotificationListenerService.OnNotificationPosted | app/src/main/java/com/bald/uriah/baldphone/services/NotificationListenerService.java:220-237 | A null notification changes nothing. Otherwise one relay runs. |
| NotificationListener.NotificationListenerService.OnNotificationRemoved | app/src/main/java/com/bald/uriah/baldphone/services/NotificationListenerService.java:258-271 | A null notification changes nothing. Otherwise one relay runs. |
| NotificationListener.NotificationListenerService.OnListenerConnected | app/src/main/java/com/bald/uriah/baldphone/services/NotificationListenerService.java:273-301 | Only the first connection acts. It starts listening, subscribes to call state iff telephony is available, and relays once. A repeated connection changes nothing. Keeps "subscribed implies listening". |
| NotificationListener.NotificationListenerService.OnListenerDisconnected | app/src/main/java/com/bald/uriah/baldphone/services/NotificationListenerService.java:316-328 | Stops listening and unsubscribes. The registered screen is kept. Disconnecting twice is the same as once. |
| NotificationListener.NotificationListenerService.ClearAllIdentifiedMissedCallNotifications | app/src/main/java/com/bald/uriah/baldphone/services/NotificationListenerService.java:453-479 | Cancels exactly the keys MissedCallKeys gives, in order. A failed query cancels nothing. |
| NotificationListener.NotificationListenerService.OnReceive | app/src/main/java/com/bald/uriah/baldphone/services/NotificationListenerService.java:78-117 | Per decoded command: registering sets the screen and relays once; Clear cancels the key when present; ClearMissedCalls runs the cleanup; anything else changes nothing. |
| ContactList.LetterIndexKeys | app/src/main/java/com/bald/uriah/baldphone/adapters/ContactRecyclerViewAdapter.java:89-103 | The letter index has exactly one key per distinct upper-cased first letter in the cursor. |
| ContactList.LetterIndexPositions | app/src/main/java/com/bald/uriah/baldphone/adapters/ContactRecyclerViewAdapter.java:95-101 | Each stored position is inside the cursor and starts a run of that letter. It is the last such run start, because SparseIntArray.append replaces an existing key. |
| ContactList.GroupedIndexIsFirstPosition | app/src/main/java/com/bald/uriah/baldphone/adapters/ContactRecyclerViewAdapter.java:95-101 | When rows sharing a letter are contiguous, the stored position is the first row with that letter. |
| ContactList.SectionLetterAgreesWithIndex | app/src/main/java/com/bald/uriah/baldphone/adapters/ContactRecyclerViewAdapter.java:144-158 | A bound row shows a section letter iff it starts a run. The letter shown upper-cases to the row's first letter, which is a key of the index. |
| ContactList.HeaderRowsAreIndexedPositions | app/src/main/java/com/bald/uriah/baldphone/adapters/ContactRecyclerViewAdapter.java:89-158 | With grouped letters, a row shows a header iff the index stores exactly that row for its letter, so the letter chooser jumps to header rows. |
| ContactList.LetterPositionsInRange | app/src/main/java/com/bald/uriah/baldphone/adapters/ContactRecyclerViewAdapter.java:95-100 | Every position in the letter index is a valid cursor position. |
| ContactList.ContactViewHolder.constructor | app/src/main/java/com/bald/uriah/baldphone/adapters/ContactRecyclerViewAdapter.java:181-183 | A new holder has no lookup key and is neither expanded nor a favorite. |
| ContactList.ContactViewHolder.SetLetter | app/src/main/java/com/bald/uriah/baldphone/adapters/ContactRecyclerViewAdapter.java:209-226 | A letter expands the row and shows the upper-cased letter. Null collapses it and keeps the old text. Null on a collapsed row changes nothing. |
| ContactList.ContactViewHolder.SetFavorite | app/src/main/java/com/bald/uriah/baldphone/adapters/ContactRecyclerViewAdapter.java:228-237 | The favorite state becomes the argument. Setting the current value again changes nothing. |
| ContactList.ContactViewHolder.OnClick | app/src/main/java/com/bald/uriah/baldphone/adapters/ContactRecyclerViewAdapter.java:239-257 | Throws iff the lookup key is null. Otherwise it opens contact info, pins an SOS contact, or shares the contact for the three modes, with that key. Any other mode does nothing. |
| ContactList.ContactRecyclerViewAdapter.constructor | app/src/main/java/com/bald/uriah/baldphone/adapters/ContactRecyclerViewAdapter.java:71-87 | The new adapter's letter index is the index of its cursor. |
| ContactList.ContactRecyclerViewAdapter.ApplyToCursor | app/src/main/java/com/bald/uriah/baldphone/adapters/ContactRecyclerViewAdapter.java:89-103 | The loop leaves the letter index equal to LetterIndex of the cursor, whose keys and positions the lemmas above characterise. |
| ContactList.ContactRecyclerViewAdapter.ChangeCursor | app/src/main/java/com/bald/uriah/baldphone/adapters/ContactRecyclerViewAdapter.java:105-108 | The new cursor is installed and the index rebuilt from it alone. |
| ContactList.ContactRecyclerViewAdapter.GetItemCount | app/src/main/java/com/bald/uriah/baldphone/adapters/ContactRecyclerViewAdapter.java:168-171 | The row count is the cursor's count, and it bounds every position the letter index stores. |
| ContactList.ContactRecyclerViewAdapter.OnBindViewHolder | app/src/main/java/com/bald/uriah/baldphone/adapters/ContactRecyclerViewAdapter.java:130-158 | The holder gets the row's lookup key and name. It is a favorite iff starred == 1. It is expanded iff the row starts a letter run, and then shows the upper-cased first letter. |
| PagerNavigation.ArrowTarget | app/src/main/java/com/bald/uriah/baldphone/views/ViewPagerHolder.java:135-148 | A click moves by at most one page, right never backwards and left never forwards. Without an adapter it does not move. From a valid page it stays within [0, count - 1]. |
| PagerNavigation.ClicksStayInRange | app/src/main/java/com/bald/uriah/baldphone/views/ViewPagerHolder.java:135-148 | From a valid page, any sequence of arrow clicks stays within [0, count - 1]. |
| PagerNavigation.ClicksMoveAtMostOneEach | app/src/main/java/com/bald/uriah/baldphone/views/ViewPagerHolder.java:135-148 | n clicks move the pager by at most n pages. |
| PagerNavigation.RightClicksReachLastPage | app/src/main/java/com/bald/uriah/baldphone/views/ViewPagerHolder.java:135-141 | From the first page, k right clicks reach page min(k, count - 1), so every page can be reached. |
| PagerNavigation.VisibleArrowsMove | app/src/main/java/com/bald/uriah/baldphone/views/ViewPagerHolder.java:169-179 | With an adapter, an arrow is shown exactly when clicking it would move the pager, which ties the handler's visibility to the click guards at lines 135-148. |
| PagerNavigation.IndicatorTextFields | app/src/main/java/com/bald/uriah/baldphone/views/ViewPagerHolder.java:181-192 | When the item type and "of" have no space, the indicator splits into four fields. They are the item type, the 1-based page number, "of" and the count, and both numbers read back to their values. |
| PagerNavigation.ViewPagerHolder.constructor | app/src/main/java/com/bald/uriah/baldphone/views/ViewPagerHolder.java:75-91 | A new holder has no adapter and page index 0. |
| PagerNavigation.ViewPagerHolder.SetItemType | app/src/main/java/com/bald/uriah/baldphone/views/ViewPagerHolder.java:114-116 | Replaces the item type. |
| PagerNavigation.ViewPagerHolder.PageChangeHandler | app/src/main/java/com/bald/uriah/baldphone/views/ViewPagerHolder.java:169-179 | Without an adapter nothing changes. Otherwise it records the position, shows each arrow iff it can move (arrows untouched in no-arrows mode), and rewrites the indicator when circles are off. |
| PagerNavigation.ViewPagerHolder.UpdatePageIndicatorText | app/src/main/java/com/bald/uriah/baldphone/views/ViewPagerHolder.java:181-192 | The indicator is rewritten only without circles and with an adapter. |
| PagerNavigation.ViewPagerHolder.RightArrowClick | app/src/main/java/com/bald/uriah/baldphone/views/ViewPagerHolder.java:135-141 | The current item becomes ArrowTarget(old, Right). If it did not move, nothing changes. If it moved, the handler ran for the new page. Keeps the page index equal to the current item and in range. |
| PagerNavigation.ViewPagerHolder.LeftArrowClick | app/src/main/java/com/bald/uriah/baldphone/views/ViewPagerHolder.java:142-148 | Same as the right arrow, towards page 0. |
| PagerNavigation.ViewPagerHolder.SetViewPagerAdapter | app/src/main/java/com/bald/uriah/baldphone/views/ViewPagerHolder.java:194-199 | The pager starts at page 0. The right arrow is shown iff there is a second page, the left arrow is hidden, and the indicator shows page 1 of count. |
| PagerNavigation.ViewPagerHolder.OnDataChanged | app/src/main/java/com/bald/uriah/baldphone/views/ViewPagerHolder.java:210-212 | Keeps the page index. Recomputes arrow visibility and indicator from it, so a second call changes nothing more. |
| PagerNavigation.ViewPagerHolder.GetPageIndex | app/src/main/java/com/bald/uriah/baldphone/views/ViewPagerHolder.java:214-216 | The reported index is the pager's current item, within the adapter's range. |
| HomePage.FirstPerPackageKeepsPackages | app/src/main/java/com/bald/uriah/baldphone/views/home/HomePage2.java:137-145 | Removing duplicates loses no package. |
| HomePage.FirstPerPackageDistinct | app/src/main/java/com/bald/uriah/baldphone/views/home/HomePage2.java:137-145 | After removing duplicates, no package appears twice. |
| HomePage.FirstPerPackageSize | app/src/main/java/com/bald/uriah/baldphone/views/home/HomePage2.java:137-145 | Exactly one activity survives per distinct package. |
| HomePage.FirstPerPackagePositions | app/src/main/java/com/bald/uriah/baldphone/views/home/HomePage2.java:137-145 | The survivors are exactly the first activity of each package, in their original order. |
| HomePage.OpenerByPackages | app/src/main/java/com/bald/uriah/baldphone/views/home/HomePage2.java:147-180 | No activity gives the error. One distinct package gives a direct launch of that package. Several give a drop-down whose size() is the number of distinct packages, with no package repeated. |
| HomePage.ClickListenerForAbstractOpener | app/src/main/java/com/bald/uriah/baldphone/views/home/HomePage2.java:124-181 | The loop with its seen-package set computes the first activity per package, and the chosen listener is the opener for that list. |
| HomePage.HomeScreen.constructor | app/src/main/java/com/bald/uriah/baldphone/views/home/HomePage2.java:107-116 | Stands for the HomeScreenActivity state that lines 107-116 read (that activity is not part of this model): a new home screen has no pending apps launch and has started nothing. |
| HomePage.HomeScreen.OnAppsButtonClick | app/src/main/java/com/bald/uriah/baldphone/views/home/HomePage2.java:107-116 | Before the apps are updated, the click only requests a deferred launch. Afterwards it starts AppsActivity once. |
| HomePage.HomeScreen.OnOpenerClick | app/src/main/java/com/bald/uriah/baldphone/views/home/HomePage2.java:168-180 | A launch opener starts its package's launch intent once when the package has a launcher activity. Otherwise the null intent makes startActivity throw NullPointerException and nothing starts. The drop-down and the error start nothing. |
| HomePage.HomeScreen.OnDropDownItemClick | app/src/main/java/com/bald/uriah/baldphone/views/home/HomePage2.java:183-201 | Clicking drop-down item i launches the package of entry i. When that package has no launcher activity, startActivity throws NullPointerException and nothing starts. |
| HomePage.HomeScreen.StartLaunchIntent | app/src/main/java/com/bald/uriah/baldphone/views/home/HomePage2.java:175-177 | Starting the launch intent of a package succeeds iff the package has a launcher activity, and then records exactly that launch. Otherwise it throws and records nothing. |
| DialogBuilder.GetText | app/src/main/java/com/bald/uriah/baldphone/utils/BDB.java:70-71 | Reading a string resource succeeds iff the context is non-null and has the id. A null context throws NullPointerException. |
| DialogBuilder.WithFlag | app/src/main/java/com/bald/uriah/baldphone/utils/BDB.java:137-140 | The new word holds both the old flags and the added flag. |
| DialogBuilder.WithFlagLeast | app/src/main/java/com/bald/uriah/baldphone/utils/BDB.java:137-140 | Adding a flag sets no other bit: any word holding both holds the result. |
| DialogBuilder.WithFlagIdempotent | app/src/main/java/com/bald/uriah/baldphone/utils/BDB.java:137-140 | Adding the same flag twice is adding it once. |
| DialogBuilder.WithFlagCommutative | app/src/main/java/com/bald/uriah/baldphone/utils/BDB.java:137-140 | Adding two flags gives the same word in either order. |
| DialogBuilder.FlagsAfterHoldsInitial | app/src/main/java/com/bald/uriah/baldphone/utils/BDB.java:137-140 | No sequence of added flags loses the flags set before. |
| DialogBuilder.FlagsAfterHoldsAdded | app/src/main/java/com/bald/uriah/baldphone/utils/BDB.java:137-140 | Every added flag is set at the end of the chain. |
| DialogBuilder.FlagsAfterAddsNothingElse | app/src/main/java/com/bald/uriah/baldphone/utils/BDB.java:137-140 | Bits absent from the initial word and from every added flag stay clear. |
| DialogBuilder.FlagsAfterSwap | app/src/main/java/com/bald/uriah/baldphone/utils/BDB.java:137-140 | Swapping two neighbouring flag additions gives the same word, so setter order does not affect the flags. |
| DialogBuilder.BDB.From | app/src/main/java/com/bald/uriah/baldphone/utils/BDB.java:32-63 | A new builder has the field defaults: title "", EMPTY listeners, starting index 0, no flags. It auto-dismisses the context iff that is a BaldActivity. |
| DialogBuilder.BDB.SetTitle | app/src/main/java/com/bald/uriah/baldphone/utils/BDB.java:65-68 | Replaces the title. |
| DialogBuilder.BDB.SetTitleById | app/src/main/java/com/bald/uriah/baldphone/utils/BDB.java:70-72 | Sets the resource's text. If the text cannot be read, it throws and the title is unchanged. |
| DialogBuilder.BDB.SetSubText | app/src/main/java/com/bald/uriah/baldphone/utils/BDB.java:74-77 | Replaces the sub-text. A null sub-text clears it. |
| DialogBuilder.BDB.SetSubTextById | app/src/main/java/com/bald/uriah/baldphone/utils/BDB.java:79-81 | Sets the resource's text. If the text cannot be read, it throws and the sub-text is unchanged. |
| DialogBuilder.BDB.SetOptions | app/src/main/java/com/bald/uriah/baldphone/utils/BDB.java:83-87 | Stores the options and adds FLAG_OPTIONS. |
| DialogBuilder.BDB.SetOptionsByIds | app/src/main/java/com/bald/uriah/baldphone/utils/BDB.java:89-95 | Succeeds iff every id is readable, and then stores their texts in order and adds FLAG_OPTIONS. Otherwise it throws a failing id's exception and changes nothing. |
| DialogBuilder.BDB.SetPositiveButtonListener | app/src/main/java/com/bald/uriah/baldphone/utils/BDB.java:97-100 | Stores the listener, null included, and adds FLAG_POSITIVE. |
| DialogBuilder.BDB.SetNegativeButtonListener | app/src/main/java/com/bald/uriah/baldphone/utils/BDB.java:102-105 | Stores the listener, null included, and adds FLAG_NEGATIVE. |
| DialogBuilder.BDB.SetInputType | app/src/main/java/com/bald/uriah/baldphone/utils/BDB.java:107-110 | Stores the input type and adds FLAG_INPUT. |
| DialogBuilder.BDB.SetOptionsStartingIndex | app/src/main/java/com/bald/uriah/baldphone/utils/BDB.java:112-115 | Replaces the chooser; no flag changes. |
| DialogBuilder.BDB.SetExtraView | app/src/main/java/com/bald/uriah/baldphone/utils/BDB.java:117-120 | Replaces the extra view. |
| DialogBuilder.BDB.SetBaldActivityToAutoDismiss | app/src/main/java/com/bald/uriah/baldphone/utils/BDB.java:122-125 | Replaces the activity to auto-dismiss, and keeps it a BaldActivity. |
| DialogBuilder.BDB.SetNegativeCustomText | app/src/main/java/com/bald/uriah/baldphone/utils/BDB.java:127-130 | Stores the resource's text and adds FLAG_CUSTOM_NEGATIVE. An unreadable id throws and changes nothing. |
| DialogBuilder.BDB.SetPositiveCustomText | app/src/main/java/com/bald/uriah/baldphone/utils/BDB.java:132-135 | Stores the resource's text and adds FLAG_CUSTOM_POSITIVE. An unreadable id throws and changes nothing. |
| DialogBuilder.BDB.AddFlag | app/src/main/java/com/bald/uriah/baldphone/utils/BDB.java:137-140 | ORs the flag into the flag word. |

Behaviour worth noting:
- `onListenerDisconnected` keeps the registered screen. A reconnection relays to that screen again; `ReconnectScenario` shows this.
- A missed call detected from the call state does not cancel missed-call notifications. Only the ACTION_CLEAR_MISSED_CALLS broadcast runs the cleanup.
- The detailed Bundle's `clearable` tests FLAG_NO_CLEAR only. The cleanup also spares FLAG_ONGOING_EVENT.
- `SparseIntArray.append` replaces the entry for a letter seen before. When a letter's rows are not contiguous, the index stores the letter's last run start, not its first.

## Left out

- BDialog's flag values: BDialog.java is not part of this model. The six FLAG_ constants here are distinct single bits chosen for the model, and every flag lemma holds for arbitrary flag words.
- BDB.show and the dialog it creates: BDialog.java is not part of this model.
- Logging (`Log.*`), icons, PendingIntents, Glide image loading, toasts, layout parameters and view visibility calls other than the arrows: they do not affect the modelled state.
- `onCreate`/`onDestroy` of the service: the broadcast-receiver registration and the PhoneStateListener set-up are platform wiring. Their outcome is the constructor's state and the `telephonyReady` parameter.
- `getDefaultDialerPackage`: an SDK-version query of the TelecomManager. The model takes its result as the constructor's parameter.
- Null entries of the active-notification array, and a null Notification inside one: the model's notifications are never null.
- NotificationListener.NotificationListenerService.ClearAllIdentifiedMissedCallNotifications: a SecurityException from getActiveNotifications propagates out of the cleanup in the source. The model treats it like a null result (nothing cancelled).
- ContactList.UpperCase: maps 'a'-'z' to 'A'-'Z' and leaves every other character unchanged. Java's `toUpperCase()` follows the device's default locale (under a Turkish or Azerbaijani locale 'i' becomes 'İ' while 'I' stays 'I') and full Unicode case mapping (é→É, ß→SS); neither is modelled. LetterIndex, SectionLetter, ApplyToCursor, OnBindViewHolder and SetLetter inherit this.
- ContactList.FirstLetter: requires non-empty display names. An empty or null name throws in `substring(0, 1)`, which the model does not capture.
- ContactList.FirstLetter: display names are sequences of Unicode scalar values, whereas Java's `substring(0, 1)` and `charAt(0)` take the first UTF-16 code unit. Two names starting with different characters outside the Basic Multilingual Plane (say two emoji sharing a high surrogate) share one index key and one header in the source but get two keys and two headers in the model; `LetterIndex`, `SectionLetter`, `ApplyToCursor` and `OnBindViewHolder` inherit this.
- ContactRecyclerViewAdapter's smooth scroll to the top in `changeCursor`, `notifyDataSetChanged`, `onCreateViewHolder`, the photo column, and the letter-chooser dialog: UI effects with no modelled state.
- PagerNavigation.ViewPagerHolder: the ViewPager is reduced to its current item and its adapter's item count. The count is fixed once the adapter is set. Swipes (possible only in no-arrows mode), `setCurrentItem`, `setPageTransformer`, `getViewPager`, the hint text and the page circles are not modelled.
- HomePage2's other buttons (settings, videos, pills, alarms) start fixed activities. They are not modelled, and neither are `onCreateView`, `attachXml`, or the SDK-dependent query flags of `queryIntentActivities`.
- BDB's options array is stored by reference in the source. The model stores the options by value, so aliasing of the caller's array is not captured.
- Concurrency: callbacks are modelled as running one at a time, as on Android's main thread.
