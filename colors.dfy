/** The app's colour palette (constants/Colors.ts): every colour is a CSS colour string.
    The module mirrors the whole palette; the colour lookup of the message
    list uses only the accent colour and the six brand colours. */
module Colors {
  const Background: string := "#121218"
  const BackgroundSecondary: string := "#1E1E2A"
  const BackgroundTertiary: string := "#2A2A3A"

  const Text: string := "#FFFFFF"
  const TextSecondary: string := "#A0A0B2"

  const Accent: string := "#7C4DFF"
  const AccentSecondary: string := "#5E35B1"

  // Brand colours of the supported chat platforms
  const Whatsapp: string := "#25D366"
  const Telegram: string := "#0088CC"
  const Messenger: string := "#00B2FF"
  const Instagram: string := "#E1306C"
  const Signal: string := "#3A76F0"
  const Slack: string := "#4A154B"

  const Success: string := "#4CAF50"
  const Warning: string := "#FF9800"
  const Error: string := "#F44336"
  const Info: string := "#2196F3"

  const Card: string := "rgba(30, 30, 42, 0.8)"
  const Divider: string := "rgba(255, 255, 255, 0.1)"
  const Overlay: string := "rgba(255, 255, 255, 0.5)"
}
