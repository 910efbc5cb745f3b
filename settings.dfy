/** The extension's settings record, shared by the content script and the popup. */
module ExtensionSettings {
  /** `{enabled, includeCode, warningThreshold, minRemainingTokens, maxTokens, updateInterval}`;
      the numbers are the already-parsed integers (the threshold is a percentage). */
  datatype Settings = Settings(
    enabled: bool,
    includeCode: bool,
    warningThreshold: int,
    minRemainingTokens: int,
    maxTokens: int,
    updateInterval: int)

  /** The defaults both the popup and the content script start from. */
  const DefaultSettings := Settings(true, true, 80, 1000, 8000, 2000)
}
