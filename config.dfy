/** The numeric configuration of the firmware (include/Config.h). */
module Config {

  /** Number of battery ports. */
  const NUM_PORTS: nat := 4

  /** The logger samples at most every 500 ms (2 Hz). */
  const SAMPLE_INTERVAL_MS: nat := 500

  /** Length of each port's median-filter window. */
  const FILTER_SAMPLES: nat := 5

  /** Default cutoff voltages per chemistry. */
  const LIION_CUTOFF: real := 3.0
  const LIFEPO4_CUTOFF: real := 2.5
  const LIPO_CUTOFF: real := 3.0

  /** Safety limits. */
  const MIN_VOLTAGE: real := 2.0
  const MAX_VOLTAGE: real := 4.5
  const MAX_DISCHARGE_CURRENT: real := 3.0

  /** Web dashboard push interval (ms). */
  const WS_UPDATE_INTERVAL: nat := 1000

  /** Front panel timings (ms). */
  const UI_REFRESH_INTERVAL: nat := 200
  const ENCODER_DEBOUNCE: nat := 50
  const MENU_TIMEOUT: nat := 30000

  /** Buzzer tone frequencies (Hz). */
  const BUZZER_FREQ_MENU: nat := 2000
  const BUZZER_FREQ_SELECT: nat := 2500
  const BUZZER_FREQ_COMPLETE: nat := 3000
  const BUZZER_FREQ_ERROR: nat := 1500

  /** Buzzer durations (ms). */
  const BUZZER_DURATION_SHORT: nat := 50
  const BUZZER_DURATION_LONG: nat := 200
  const BUZZER_DURATION_COMPLETE: nat := 500
}
