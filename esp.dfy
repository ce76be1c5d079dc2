/** The subset of ESP-IDF's `esp_err_t` codes that the modelled code returns
    or passes through. */
module Esp {

  datatype Err =
    | Ok                  // ESP_OK
    | Fail                // ESP_FAIL
    | InvalidArg          // ESP_ERR_INVALID_ARG
    | InvalidResponse     // ESP_ERR_INVALID_RESPONSE
    | NvsNotFound         // ESP_ERR_NVS_NOT_FOUND
    | Other(code: int)    // any other code a platform library may report
}
