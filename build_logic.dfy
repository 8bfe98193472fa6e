/**
 * The pure decisions of the build task: whether the packager zips the
 * self-contained directory itself, the age of a profile in days, and the
 * text of a macOS bundle's Info.plist.
 */
module BuildLogic {
  import opened BuildModel

  /**
   * Whether the packager may zip the self-contained directory itself
   * (useXPackZipping). Written with the grouping that Java's precedence gives
   * the source expression: `&&` binds tighter than `||`.
   */
  predicate UseXPackZipping(env: Env)
  {
    && ((!env.toProfile && env.project.packaging == Zip) || (env.toProfile && !env.project.profileLocally))
    && env.jet.since11_3
    && env.project.appType != WindowsService
    && (env.jet.since12_0 || (env.project.slimDown.None? && !env.project.diskFootprintReduction))
  }

  const MillisPerDay: int := 86400000

  /** Java's `long` division: the quotient is truncated toward zero. */
  function TruncatingDiv(a: int, b: int): int
    requires b > 0
  {
    if a >= 0 then a / b else -((-a) / b)
  }

  /**
   * computeModifyTimeDaysBetween: the difference of two modification times,
   * in milliseconds, converted to whole days as `TimeUnit.DAYS.convert` does.
   */
  function DaysBetween(firstModified: int, secondModified: int): int
  {
    TruncatingDiv(secondModified - firstModified, MillisPerDay)
  }

  /** The Info.plist text: the concatenation of `parts`, in order. */
  function Concat(parts: seq<string>): string
  {
    if parts == [] then "" else parts[0] + Concat(parts[1..])
  }

  const PlistHeader: seq<string> := [
    "<?xml version=\"1.0\" encoding=\"UTF-8\"?>\n",
    "<!DOCTYPE plist PUBLIC \"-//Apple Computer//DTD PLIST 1.0//EN\" \"http://www.apple.com/DTDs/PropertyList-1.0.dtd\">\n",
    "<plist version=\"1.0\">\n",
    "<dict>\n" ]

  const PlistFooter: seq<string> := ["</dict>\n", "</plist>\n"]

  /** The fragments of the executable, name, identifier and version entries. */
  function BundleInfoParts(outputName: string, b: OsxBundle): seq<string>
  {
    [ "  <key>CFBundleExecutable</key>\n",
      "  <string>", outputName, "</string>\n",
      "  <key>CFBundleName</key>\n",
      "  <string>", b.bundleName, "</string>\n",
      "  <key>CFBundleIdentifier</key>\n",
      "  <string>", b.identifier, "</string>\n",
      "  <key>CFBundleVersionString</key>\n",
      "  <string>", b.version, "</string>\n",
      "  <key>CFBundleShortVersionString</key>\n",
      "  <string>", b.shortVersion, "</string>\n" ]
  }

  function IconParts(b: OsxBundle): seq<string>
  {
    if b.icon.Some? then
      [ "  <key>CFBundleIconFile</key>\n",
        "  <string>", b.icon.value.name, "</string>\n" ]
    else []
  }

  function HighResolutionParts(b: OsxBundle): seq<string>
  {
    if b.highResolutionCapable then
      [ "  <key>NSHighResolutionCapable</key>\n",
        "  <true/>" ]
    else []
  }

  /** The operands of the string concatenation the build task writes to Info.plist, in order. */
  function InfoPlistParts(outputName: string, b: OsxBundle): seq<string>
  {
    PlistHeader +
    [ "  <key>CFBundlePackageType</key>\n",
      "  <string>APPL</string>\n" ] +
    BundleInfoParts(outputName, b) +
    IconParts(b) +
    HighResolutionParts(b) +
    PlistFooter
  }

  /** The Info.plist text, as the build task writes it. */
  function InfoPlist(outputName: string, b: OsxBundle): string
  {
    Concat(InfoPlistParts(outputName, b))
  }

  // A structured view of the property list, independent of its text.

  /** The dictionary keys the bundle's Info.plist can hold. */
  datatype PlistKey =
    | CFBundlePackageType | CFBundleExecutable | CFBundleName | CFBundleIdentifier
    | CFBundleVersionString | CFBundleShortVersionString | CFBundleIconFile | NSHighResolutionCapable

  datatype PlistValue = PlistString(s: string) | PlistTrue

  datatype PlistEntry = PlistEntry(key: PlistKey, value: PlistValue)

  /** The dictionary entries the bundle's Info.plist is meant to hold, in order. */
  function PlistEntries(outputName: string, b: OsxBundle): seq<PlistEntry>
  {
    FixedEntries(outputName, b) + IconEntries(b) + HighResolutionEntries(b)
  }

  /** The entries every bundle's Info.plist holds. */
  function FixedEntries(outputName: string, b: OsxBundle): seq<PlistEntry>
  {
    [ PlistEntry(CFBundlePackageType, PlistString("APPL")),
      PlistEntry(CFBundleExecutable, PlistString(outputName)),
      PlistEntry(CFBundleName, PlistString(b.bundleName)),
      PlistEntry(CFBundleIdentifier, PlistString(b.identifier)),
      PlistEntry(CFBundleVersionString, PlistString(b.version)),
      PlistEntry(CFBundleShortVersionString, PlistString(b.shortVersion)) ]
  }

  function IconEntries(b: OsxBundle): seq<PlistEntry>
  {
    if b.icon.Some? then [PlistEntry(CFBundleIconFile, PlistString(b.icon.value.name))] else []
  }

  function HighResolutionEntries(b: OsxBundle): seq<PlistEntry>
  {
    if b.highResolutionCapable then [PlistEntry(NSHighResolutionCapable, PlistTrue)] else []
  }

  function PlistKeys(entries: seq<PlistEntry>): (keys: seq<PlistKey>)
    ensures |keys| == |entries|
    ensures forall i :: 0 <= i < |entries| ==> keys[i] == entries[i].key
  {
    if entries == [] then [] else [entries[0].key] + PlistKeys(entries[1..])
  }

  /** The line declaring a key. */
  function KeyLine(k: PlistKey): string
  {
    match k
    case CFBundlePackageType => "  <key>CFBundlePackageType</key>\n"
    case CFBundleExecutable => "  <key>CFBundleExecutable</key>\n"
    case CFBundleName => "  <key>CFBundleName</key>\n"
    case CFBundleIdentifier => "  <key>CFBundleIdentifier</key>\n"
    case CFBundleVersionString => "  <key>CFBundleVersionString</key>\n"
    case CFBundleShortVersionString => "  <key>CFBundleShortVersionString</key>\n"
    case CFBundleIconFile => "  <key>CFBundleIconFile</key>\n"
    case NSHighResolutionCapable => "  <key>NSHighResolutionCapable</key>\n"
  }

  /**
   * One entry as text fragments. A `<true/>` value is not followed by a line
   * break: the build task writes the closing `</dict>` on the same line.
   */
  function EntryParts(e: PlistEntry): seq<string>
  {
    match e.value
    case PlistString(s) => [KeyLine(e.key), "  <string>", s, "</string>\n"]
    case PlistTrue => [KeyLine(e.key), "  <true/>"]
  }

  function EntriesParts(entries: seq<PlistEntry>): seq<string>
  {
    if entries == [] then [] else EntryParts(entries[0]) + EntriesParts(entries[1..])
  }

  /** A property list holding `entries`, as text. */
  function RenderPlist(entries: seq<PlistEntry>): string
  {
    Concat(PlistHeader + EntriesParts(entries) + PlistFooter)
  }
}
