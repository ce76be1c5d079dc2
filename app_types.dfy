/** The application's states and events (components/app/include/app.h,
    extended with the three states that components/app/app.c assigns but the
    header does not declare). */
module AppTypes {

  /** AppState_t as app.c uses it. */
  datatype AppState =
    | Init
    | Idle
    | Settings                // declared in app.h, never entered by app.c
    | RunningBlue
    | RunningRed
    | Finished
    | SettingsControlPoint    // assigned in app.c only
    | SettingsExit            // assigned in app.c only; has no case of its own
    | SettingsCpAlpha         // assigned in app.c only; has no case of its own

  /** AppEvent_t: the setup-timer expiry and the nine classified presses. */
  datatype AppEvent =
    | TmrInitSetup
    | BtnRedShort | BtnRedMedium | BtnRedLong
    | BtnBlueShort | BtnBlueMedium | BtnBlueLong
    | BtnBothShort | BtnBothMedium | BtnBothLong

  /** Team_t without its INVALID and COUNT sentinels. */
  datatype Team = Red | Blue
}
