/** The ole32.dll ordinal table of the PE import resolver: a total function
    from a 32-bit ordinal to the name of the export with that ordinal, or to
    nothing when the table does not know the ordinal. */
module Ole32Lookup {
  import opened Wrappers

  /** Number of case labels in the table. */
  const CaseCount: nat := 0x153

  /** The export name of ole32.dll for ordinal `i`; `None` stands for the
      null pointer the table returns for an ordinal it does not list. The
      table's single switch is written here as a range test that selects a
      block of sixteen consecutive ordinals (the last block also takes every
      ordinal above it), followed by a switch over the block; the mapping is
      the same. Every name in the table is nonempty. */
  function Ole32DllLookup(i: u32): (r: Option<string>)
    ensures r.Some? ==> r.value != ""
  {
    if i < 0x0010 then Block0000(i)
    else if i < 0x0020 then Block0010(i)
    else if i < 0x0030 then Block0020(i)
    else if i < 0x0040 then Block0030(i)
    else if i < 0x0050 then Block0040(i)
    else if i < 0x0060 then Block0050(i)
    else if i < 0x0070 then Block0060(i)
    else if i < 0x0080 then Block0070(i)
    else if i < 0x0090 then Block0080(i)
    else if i < 0x00a0 then Block0090(i)
    else if i < 0x00b0 then Block00a0(i)
    else if i < 0x00c0 then Block00b0(i)
    else if i < 0x00d0 then Block00c0(i)
    else if i < 0x00e0 then Block00d0(i)
    else if i < 0x00f0 then Block00e0(i)
    else if i < 0x0100 then Block00f0(i)
    else if i < 0x0110 then Block0100(i)
    else if i < 0x0120 then Block0110(i)
    else if i < 0x0130 then Block0120(i)
    else if i < 0x0140 then Block0130(i)
    else if i < 0x0150 then Block0140(i)
    else Block0150(i)
  }

  /** The cases of the table for ordinals 0x0000 to 0x000f.
      Ordinal 0 is not listed; the table places ordinal 1 between 0x011a
      and 0x011b. */
  function Block0000(i: u32): (r: Option<string>)
    ensures r.Some? ==> r.value != ""
  {
    match i
    case 0x0001 => Some("PropVariantChangeType")
    case 0x0002 => Some("BindMoniker")
    case 0x0003 => Some("CLIPFORMAT_UserFree")
    case 0x0004 => Some("CLIPFORMAT_UserMarshal")
    case 0x0005 => Some("CLIPFORMAT_UserSize")
    case 0x0006 => Some("CLIPFORMAT_UserUnmarshal")
    case 0x0007 => Some("CLSIDFromOle1Class")
    case 0x0008 => Some("CLSIDFromProgID")
    case 0x0009 => Some("CLSIDFromProgIDEx")
    case 0x000a => Some("CLSIDFromString")
    case 0x000b => Some("CoAddRefServerProcess")
    case 0x000c => Some("CoAllowSetForegroundWindow")
    case 0x000d => Some("CoBuildVersion")
    case 0x000e => Some("CoCancelCall")
    case 0x000f => Some("CoCopyProxy")
    case _ => None
  }

  /** The cases of the table for ordinals 0x0010 to 0x001f. */
  function Block0010(i: u32): (r: Option<string>)
    ensures r.Some? ==> r.value != ""
  {
    match i
    case 0x0010 => Some("CoCreateFreeThreadedMarshaler")
    case 0x0011 => Some("CoCreateGuid")
    case 0x0012 => Some("CoCreateInstance")
    case 0x0013 => Some("CoCreateInstanceEx")
    case 0x0014 => Some("CoCreateObjectInContext")
    case 0x0015 => Some("CoDeactivateObject")
    case 0x0016 => Some("CoDisableCallCancellation")
    case 0x0017 => Some("CoDisconnectObject")
    case 0x0018 => Some("CoDosDateTimeToFileTime")
    case 0x0019 => Some("CoEnableCallCancellation")
    case 0x001a => Some("CoFileTimeNow")
    case 0x001b => Some("CoFileTimeToDosDateTime")
    case 0x001c => Some("CoFreeAllLibraries")
    case 0x001d => Some("CoFreeLibrary")
    case 0x001e => Some("CoFreeUnusedLibraries")
    case 0x001f => Some("CoFreeUnusedLibrariesEx")
    case _ => None
  }

  /** The cases of the table for ordinals 0x0020 to 0x002f. */
  function Block0020(i: u32): (r: Option<string>)
    ensures r.Some? ==> r.value != ""
  {
    match i
    case 0x0020 => Some("CoGetApartmentID")
    case 0x0021 => Some("CoGetCallContext")
    case 0x0022 => Some("CoGetCallerTID")
    case 0x0023 => Some("CoGetCancelObject")
    case 0x0024 => Some("CoGetClassObject")
    case 0x0025 => Some("CoGetClassVersion")
    case 0x0026 => Some("CoGetComCatalog")
    case 0x0027 => Some("CoGetContextToken")
    case 0x0028 => Some("CoGetCurrentLogicalThreadId")
    case 0x0029 => Some("CoGetCurrentProcess")
    case 0x002a => Some("CoGetDefaultContext")
    case 0x002b => Some("CoGetInstanceFromFile")
    case 0x002c => Some("CoGetInstanceFromIStorage")
    case 0x002d => Some("CoGetInterceptor")
    case 0x002e => Some("CoGetInterceptorFromTypeInfo")
    case 0x002f => Some("CoGetInterfaceAndReleaseStream")
    case _ => None
  }

  /** The cases of the table for ordinals 0x0030 to 0x003f. */
  function Block0030(i: u32): (r: Option<string>)
    ensures r.Some? ==> r.value != ""
  {
    match i
    case 0x0030 => Some("CoGetMalloc")
    case 0x0031 => Some("CoGetMarshalSizeMax")
    case 0x0032 => Some("CoGetObject")
    case 0x0033 => Some("CoGetObjectContext")
    case 0x0034 => Some("CoGetPSClsid")
    case 0x0035 => Some("CoGetProcessIdentifier")
    case 0x0036 => Some("CoGetStandardMarshal")
    case 0x0037 => Some("CoGetState")
    case 0x0038 => Some("CoGetStdMarshalEx")
    case 0x0039 => Some("CoGetSystemSecurityPermissions")
    case 0x003a => Some("CoGetTreatAsClass")
    case 0x003b => Some("CoImpersonateClient")
    case 0x003c => Some("CoInitialize")
    case 0x003d => Some("CoInitializeEx")
    case 0x003e => Some("CoInitializeSecurity")
    case 0x003f => Some("CoInitializeWOW")
    case _ => None
  }

  /** The cases of the table for ordinals 0x0040 to 0x004f. */
  function Block0040(i: u32): (r: Option<string>)
    ensures r.Some? ==> r.value != ""
  {
    match i
    case 0x0040 => Some("CoInstall")
    case 0x0041 => Some("CoInvalidateRemoteMachineBindings")
    case 0x0042 => Some("CoIsHandlerConnected")
    case 0x0043 => Some("CoIsOle1Class")
    case 0x0044 => Some("CoLoadLibrary")
    case 0x0045 => Some("CoLockObjectExternal")
    case 0x0046 => Some("CoMarshalHresult")
    case 0x0047 => Some("CoMarshalInterThreadInterfaceInStream")
    case 0x0048 => Some("CoMarshalInterface")
    case 0x0049 => Some("CoPopServiceDomain")
    case 0x004a => Some("CoPushServiceDomain")
    case 0x004b => Some("CoQueryAuthenticationServices")
    case 0x004c => Some("CoQueryClientBlanket")
    case 0x004d => Some("CoQueryProxyBlanket")
    case 0x004e => Some("CoQueryReleaseObject")
    case 0x004f => Some("CoReactivateObject")
    case _ => None
  }

  /** The cases of the table for ordinals 0x0050 to 0x005f. */
  function Block0050(i: u32): (r: Option<string>)
    ensures r.Some? ==> r.value != ""
  {
    match i
    case 0x0050 => Some("CoRegisterChannelHook")
    case 0x0051 => Some("CoRegisterClassObject")
    case 0x0052 => Some("CoRegisterInitializeSpy")
    case 0x0053 => Some("CoRegisterMallocSpy")
    case 0x0054 => Some("CoRegisterMessageFilter")
    case 0x0055 => Some("CoRegisterPSClsid")
    case 0x0056 => Some("CoRegisterSurrogate")
    case 0x0057 => Some("CoRegisterSurrogateEx")
    case 0x0058 => Some("CoReleaseMarshalData")
    case 0x0059 => Some("CoReleaseServerProcess")
    case 0x005a => Some("CoResumeClassObjects")
    case 0x005b => Some("CoRetireServer")
    case 0x005c => Some("CoRevertToSelf")
    case 0x005d => Some("CoRevokeClassObject")
    case 0x005e => Some("CoRevokeInitializeSpy")
    case 0x005f => Some("CoRevokeMallocSpy")
    case _ => None
  }

  /** The cases of the table for ordinals 0x0060 to 0x006f. */
  function Block0060(i: u32): (r: Option<string>)
    ensures r.Some? ==> r.value != ""
  {
    match i
    case 0x0060 => Some("CoSetCancelObject")
    case 0x0061 => Some("CoSetProxyBlanket")
    case 0x0062 => Some("CoSetState")
    case 0x0063 => Some("CoSuspendClassObjects")
    case 0x0064 => Some("CoSwitchCallContext")
    case 0x0065 => Some("CoTaskMemAlloc")
    case 0x0066 => Some("CoTaskMemFree")
    case 0x0067 => Some("CoTaskMemRealloc")
    case 0x0068 => Some("CoTestCancel")
    case 0x0069 => Some("CoTreatAsClass")
    case 0x006a => Some("CoUninitialize")
    case 0x006b => Some("CoUnloadingWOW")
    case 0x006c => Some("CoUnmarshalHresult")
    case 0x006d => Some("CoUnmarshalInterface")
    case 0x006e => Some("CoWaitForMultipleHandles")
    case 0x006f => Some("ComPs_CStdStubBuffer_AddRef")
    case _ => None
  }

  /** The cases of the table for ordinals 0x0070 to 0x007f. */
  function Block0070(i: u32): (r: Option<string>)
    ensures r.Some? ==> r.value != ""
  {
    match i
    case 0x0070 => Some("ComPs_CStdStubBuffer_Connect")
    case 0x0071 => Some("ComPs_CStdStubBuffer_CountRefs")
    case 0x0072 => Some("ComPs_CStdStubBuffer_DebugServerQueryInterface")
    case 0x0073 => Some("ComPs_CStdStubBuffer_DebugServerRelease")
    case 0x0074 => Some("ComPs_CStdStubBuffer_Disconnect")
    case 0x0075 => Some("ComPs_CStdStubBuffer_Invoke")
    case 0x0076 => Some("ComPs_CStdStubBuffer_IsIIDSupported")
    case 0x0077 => Some("ComPs_CStdStubBuffer_QueryInterface")
    case 0x0078 => Some("ComPs_IUnknown_AddRef_Proxy")
    case 0x0079 => Some("ComPs_IUnknown_QueryInterface_Proxy")
    case 0x007a => Some("ComPs_IUnknown_Release_Proxy")
    case 0x007b => Some("ComPs_NdrCStdStubBuffer2_Release")
    case 0x007c => Some("ComPs_NdrCStdStubBuffer_Release")
    case 0x007d => Some("ComPs_NdrClientCall2")
    case 0x007e => Some("ComPs_NdrClientCall2_va")
    case 0x007f => Some("ComPs_NdrDllCanUnloadNow")
    case _ => None
  }

  /** The cases of the table for ordinals 0x0080 to 0x008f. */
  function Block0080(i: u32): (r: Option<string>)
    ensures r.Some? ==> r.value != ""
  {
    match i
    case 0x0080 => Some("ComPs_NdrDllGetClassObject")
    case 0x0081 => Some("ComPs_NdrDllRegisterProxy")
    case 0x0082 => Some("ComPs_NdrDllUnregisterProxy")
    case 0x0083 => Some("ComPs_NdrStubCall2")
    case 0x0084 => Some("ComPs_NdrStubForwardingFunction")
    case 0x0085 => Some("CreateAntiMoniker")
    case 0x0086 => Some("CreateBindCtx")
    case 0x0087 => Some("CreateClassMoniker")
    case 0x0088 => Some("CreateDataAdviseHolder")
    case 0x0089 => Some("CreateDataCache")
    case 0x008a => Some("CreateErrorInfo")
    case 0x008b => Some("CreateFileMoniker")
    case 0x008c => Some("CreateGenericComposite")
    case 0x008d => Some("CreateILockBytesOnHGlobal")
    case 0x008e => Some("CreateItemMoniker")
    case 0x008f => Some("CreateObjrefMoniker")
    case _ => None
  }

  /** The cases of the table for ordinals 0x0090 to 0x009f. */
  function Block0090(i: u32): (r: Option<string>)
    ensures r.Some? ==> r.value != ""
  {
    match i
    case 0x0090 => Some("CreateOleAdviseHolder")
    case 0x0091 => Some("CreatePointerMoniker")
    case 0x0092 => Some("CreateStdProgressIndicator")
    case 0x0093 => Some("CreateStreamOnHGlobal")
    case 0x0094 => Some("DcomChannelSetHResult")
    case 0x0095 => Some("DllDebugObjectRPCHook")
    case 0x0096 => Some("DllGetClassObject")
    case 0x0097 => Some("DllGetClassObjectWOW")
    case 0x0098 => Some("DllRegisterServer")
    case 0x0099 => Some("DoDragDrop")
    case 0x009a => Some("EnableHookObject")
    case 0x009b => Some("FmtIdToPropStgName")
    case 0x009c => Some("FreePropVariantArray")
    case 0x009d => Some("GetClassFile")
    case 0x009e => Some("GetConvertStg")
    case 0x009f => Some("GetDocumentBitStg")
    case _ => None
  }

  /** The cases of the table for ordinals 0x00a0 to 0x00af. */
  function Block00a0(i: u32): (r: Option<string>)
    ensures r.Some? ==> r.value != ""
  {
    match i
    case 0x00a0 => Some("GetErrorInfo")
    case 0x00a1 => Some("GetHGlobalFromILockBytes")
    case 0x00a2 => Some("GetHGlobalFromStream")
    case 0x00a3 => Some("GetHookInterface")
    case 0x00a4 => Some("GetRunningObjectTable")
    case 0x00a5 => Some("HACCEL_UserFree")
    case 0x00a6 => Some("HACCEL_UserMarshal")
    case 0x00a7 => Some("HACCEL_UserSize")
    case 0x00a8 => Some("HACCEL_UserUnmarshal")
    case 0x00a9 => Some("HBITMAP_UserFree")
    case 0x00aa => Some("HBITMAP_UserMarshal")
    case 0x00ab => Some("HBITMAP_UserSize")
    case 0x00ac => Some("HBITMAP_UserUnmarshal")
    case 0x00ad => Some("HBRUSH_UserFree")
    case 0x00ae => Some("HBRUSH_UserMarshal")
    case 0x00af => Some("HBRUSH_UserSize")
    case _ => None
  }

  /** The cases of the table for ordinals 0x00b0 to 0x00bf. */
  function Block00b0(i: u32): (r: Option<string>)
    ensures r.Some? ==> r.value != ""
  {
    match i
    case 0x00b0 => Some("HBRUSH_UserUnmarshal")
    case 0x00b1 => Some("HDC_UserFree")
    case 0x00b2 => Some("HDC_UserMarshal")
    case 0x00b3 => Some("HDC_UserSize")
    case 0x00b4 => Some("HDC_UserUnmarshal")
    case 0x00b5 => Some("HENHMETAFILE_UserFree")
    case 0x00b6 => Some("HENHMETAFILE_UserMarshal")
    case 0x00b7 => Some("HENHMETAFILE_UserSize")
    case 0x00b8 => Some("HENHMETAFILE_UserUnmarshal")
    case 0x00b9 => Some("HGLOBAL_UserFree")
    case 0x00ba => Some("HGLOBAL_UserMarshal")
    case 0x00bb => Some("HGLOBAL_UserSize")
    case 0x00bc => Some("HGLOBAL_UserUnmarshal")
    case 0x00bd => Some("HICON_UserFree")
    case 0x00be => Some("HICON_UserMarshal")
    case 0x00bf => Some("HICON_UserSize")
    case _ => None
  }

  /** The cases of the table for ordinals 0x00c0 to 0x00cf. */
  function Block00c0(i: u32): (r: Option<string>)
    ensures r.Some? ==> r.value != ""
  {
    match i
    case 0x00c0 => Some("HICON_UserUnmarshal")
    case 0x00c1 => Some("HMENU_UserFree")
    case 0x00c2 => Some("HMENU_UserMarshal")
    case 0x00c3 => Some("HMENU_UserSize")
    case 0x00c4 => Some("HMENU_UserUnmarshal")
    case 0x00c5 => Some("HMETAFILEPICT_UserFree")
    case 0x00c6 => Some("HMETAFILEPICT_UserMarshal")
    case 0x00c7 => Some("HMETAFILEPICT_UserSize")
    case 0x00c8 => Some("HMETAFILEPICT_UserUnmarshal")
    case 0x00c9 => Some("HMETAFILE_UserFree")
    case 0x00ca => Some("HMETAFILE_UserMarshal")
    case 0x00cb => Some("HMETAFILE_UserSize")
    case 0x00cc => Some("HMETAFILE_UserUnmarshal")
    case 0x00cd => Some("HPALETTE_UserFree")
    case 0x00ce => Some("HPALETTE_UserMarshal")
    case 0x00cf => Some("HPALETTE_UserSize")
    case _ => None
  }

  /** The cases of the table for ordinals 0x00d0 to 0x00df. */
  function Block00d0(i: u32): (r: Option<string>)
    ensures r.Some? ==> r.value != ""
  {
    match i
    case 0x00d0 => Some("HPALETTE_UserUnmarshal")
    case 0x00d1 => Some("HWND_UserFree")
    case 0x00d2 => Some("HWND_UserMarshal")
    case 0x00d3 => Some("HWND_UserSize")
    case 0x00d4 => Some("HWND_UserUnmarshal")
    case 0x00d5 => Some("HkOleRegisterObject")
    case 0x00d6 => Some("IIDFromString")
    case 0x00d7 => Some("IsAccelerator")
    case 0x00d8 => Some("IsEqualGUID")
    case 0x00d9 => Some("IsValidIid")
    case 0x00da => Some("IsValidInterface")
    case 0x00db => Some("IsValidPtrIn")
    case 0x00dc => Some("IsValidPtrOut")
    case 0x00dd => Some("MkParseDisplayName")
    case 0x00de => Some("MonikerCommonPrefixWith")
    case 0x00df => Some("MonikerRelativePathTo")
    case _ => None
  }

  /** The cases of the table for ordinals 0x00e0 to 0x00ef. */
  function Block00e0(i: u32): (r: Option<string>)
    ensures r.Some? ==> r.value != ""
  {
    match i
    case 0x00e0 => Some("OleBuildVersion")
    case 0x00e1 => Some("OleConvertIStorageToOLESTREAM")
    case 0x00e2 => Some("OleConvertIStorageToOLESTREAMEx")
    case 0x00e3 => Some("OleConvertOLESTREAMToIStorage")
    case 0x00e4 => Some("OleConvertOLESTREAMToIStorageEx")
    case 0x00e5 => Some("OleCreate")
    case 0x00e6 => Some("OleCreateDefaultHandler")
    case 0x00e7 => Some("OleCreateEmbeddingHelper")
    case 0x00e8 => Some("OleCreateEx")
    case 0x00e9 => Some("OleCreateFromData")
    case 0x00ea => Some("OleCreateFromDataEx")
    case 0x00eb => Some("OleCreateFromFile")
    case 0x00ec => Some("OleCreateFromFileEx")
    case 0x00ed => Some("OleCreateLink")
    case 0x00ee => Some("OleCreateLinkEx")
    case 0x00ef => Some("OleCreateLinkFromData")
    case _ => None
  }

  /** The cases of the table for ordinals 0x00f0 to 0x00ff. */
  function Block00f0(i: u32): (r: Option<string>)
    ensures r.Some? ==> r.value != ""
  {
    match i
    case 0x00f0 => Some("OleCreateLinkFromDataEx")
    case 0x00f1 => Some("OleCreateLinkToFile")
    case 0x00f2 => Some("OleCreateLinkToFileEx")
    case 0x00f3 => Some("OleCreateMenuDescriptor")
    case 0x00f4 => Some("OleCreateStaticFromData")
    case 0x00f5 => Some("OleDestroyMenuDescriptor")
    case 0x00f6 => Some("OleDoAutoConvert")
    case 0x00f7 => Some("OleDraw")
    case 0x00f8 => Some("OleDuplicateData")
    case 0x00f9 => Some("OleFlushClipboard")
    case 0x00fa => Some("OleGetAutoConvert")
    case 0x00fb => Some("OleGetClipboard")
    case 0x00fc => Some("OleGetIconOfClass")
    case 0x00fd => Some("OleGetIconOfFile")
    case 0x00fe => Some("OleInitialize")
    case 0x00ff => Some("OleInitializeWOW")
    case _ => None
  }

  /** The cases of the table for ordinals 0x0100 to 0x010f. */
  function Block0100(i: u32): (r: Option<string>)
    ensures r.Some? ==> r.value != ""
  {
    match i
    case 0x0100 => Some("OleIsCurrentClipboard")
    case 0x0101 => Some("OleIsRunning")
    case 0x0102 => Some("OleLoad")
    case 0x0103 => Some("OleLoadFromStream")
    case 0x0104 => Some("OleLockRunning")
    case 0x0105 => Some("OleMetafilePictFromIconAndLabel")
    case 0x0106 => Some("OleNoteObjectVisible")
    case 0x0107 => Some("OleQueryCreateFromData")
    case 0x0108 => Some("OleQueryLinkFromData")
    case 0x0109 => Some("OleRegEnumFormatEtc")
    case 0x010a => Some("OleRegEnumVerbs")
    case 0x010b => Some("OleRegGetMiscStatus")
    case 0x010c => Some("OleRegGetUserType")
    case 0x010d => Some("OleRun")
    case 0x010e => Some("OleSave")
    case 0x010f => Some("OleSaveToStream")
    case _ => None
  }

  /** The cases of the table for ordinals 0x0110 to 0x011f. */
  function Block0110(i: u32): (r: Option<string>)
    ensures r.Some? ==> r.value != ""
  {
    match i
    case 0x0110 => Some("OleSetAutoConvert")
    case 0x0111 => Some("OleSetClipboard")
    case 0x0112 => Some("OleSetContainedObject")
    case 0x0113 => Some("OleSetMenuDescriptor")
    case 0x0114 => Some("OleTranslateAccelerator")
    case 0x0115 => Some("OleUninitialize")
    case 0x0116 => Some("OpenOrCreateStream")
    case 0x0117 => Some("ProgIDFromCLSID")
    case 0x0118 => Some("PropStgNameToFmtId")
    case 0x0119 => Some("PropSysAllocString")
    case 0x011a => Some("PropSysFreeString")
    case 0x011b => Some("PropVariantClear")
    case 0x011c => Some("PropVariantCopy")
    case 0x011d => Some("ReadClassStg")
    case 0x011e => Some("ReadClassStm")
    case 0x011f => Some("ReadFmtUserTypeStg")
    case _ => None
  }

  /** The cases of the table for ordinals 0x0120 to 0x012f. */
  function Block0120(i: u32): (r: Option<string>)
    ensures r.Some? ==> r.value != ""
  {
    match i
    case 0x0120 => Some("ReadOleStg")
    case 0x0121 => Some("ReadStringStream")
    case 0x0122 => Some("RegisterDragDrop")
    case 0x0123 => Some("ReleaseStgMedium")
    case 0x0124 => Some("RevokeDragDrop")
    case 0x0125 => Some("SNB_UserFree")
    case 0x0126 => Some("SNB_UserMarshal")
    case 0x0127 => Some("SNB_UserSize")
    case 0x0128 => Some("SNB_UserUnmarshal")
    case 0x0129 => Some("STGMEDIUM_UserFree")
    case 0x012a => Some("STGMEDIUM_UserMarshal")
    case 0x012b => Some("STGMEDIUM_UserSize")
    case 0x012c => Some("STGMEDIUM_UserUnmarshal")
    case 0x012d => Some("SetConvertStg")
    case 0x012e => Some("SetDocumentBitStg")
    case 0x012f => Some("SetErrorInfo")
    case _ => None
  }

  /** The cases of the table for ordinals 0x0130 to 0x013f. */
  function Block0130(i: u32): (r: Option<string>)
    ensures r.Some? ==> r.value != ""
  {
    match i
    case 0x0130 => Some("StgConvertPropertyToVariant")
    case 0x0131 => Some("StgConvertVariantToProperty")
    case 0x0132 => Some("StgCreateDocfile")
    case 0x0133 => Some("StgCreateDocfileOnILockBytes")
    case 0x0134 => Some("StgCreatePropSetStg")
    case 0x0135 => Some("StgCreatePropStg")
    case 0x0136 => Some("StgCreateStorageEx")
    case 0x0137 => Some("StgGetIFillLockBytesOnFile")
    case 0x0138 => Some("StgGetIFillLockBytesOnILockBytes")
    case 0x0139 => Some("StgIsStorageFile")
    case 0x013a => Some("StgIsStorageILockBytes")
    case 0x013b => Some("StgOpenAsyncDocfileOnIFillLockBytes")
    case 0x013c => Some("StgOpenPropStg")
    case 0x013d => Some("StgOpenStorage")
    case 0x013e => Some("StgOpenStorageEx")
    case 0x013f => Some("StgOpenStorageOnHandle")
    case _ => None
  }

  /** The cases of the table for ordinals 0x0140 to 0x014f. */
  function Block0140(i: u32): (r: Option<string>)
    ensures r.Some? ==> r.value != ""
  {
    match i
    case 0x0140 => Some("StgOpenStorageOnILockBytes")
    case 0x0141 => Some("StgPropertyLengthAsVariant")
    case 0x0142 => Some("StgSetTimes")
    case 0x0143 => Some("StringFromCLSID")
    case 0x0144 => Some("StringFromGUID2")
    case 0x0145 => Some("StringFromIID")
    case 0x0146 => Some("UpdateDCOMSettings")
    case 0x0147 => Some("UtConvertDvtd16toDvtd32")
    case 0x0148 => Some("UtConvertDvtd32toDvtd16")
    case 0x0149 => Some("UtGetDvtd16Info")
    case 0x014a => Some("UtGetDvtd32Info")
    case 0x014b => Some("WdtpInterfacePointer_UserFree")
    case 0x014c => Some("WdtpInterfacePointer_UserMarshal")
    case 0x014d => Some("WdtpInterfacePointer_UserSize")
    case 0x014e => Some("WdtpInterfacePointer_UserUnmarshal")
    case 0x014f => Some("WriteClassStg")
    case _ => None
  }

  /** The cases of the table for ordinals 0x0150 to 0x015f. */
  function Block0150(i: u32): (r: Option<string>)
    ensures r.Some? ==> r.value != ""
  {
    match i
    case 0x0150 => Some("WriteClassStm")
    case 0x0151 => Some("WriteFmtUserTypeStg")
    case 0x0152 => Some("WriteOleStg")
    case 0x0153 => Some("WriteStringStream")
    case _ => None
  }

  lemma OrdinalsListed0001(i: u32)
    requires 0x0001 <= i < 0x0031
    ensures Ole32DllLookup(i).Some?
  {
  }

  lemma OrdinalsListed0031(i: u32)
    requires 0x0031 <= i < 0x0061
    ensures Ole32DllLookup(i).Some?
  {
  }

  lemma OrdinalsListed0061(i: u32)
    requires 0x0061 <= i < 0x0091
    ensures Ole32DllLookup(i).Some?
  {
  }

  lemma OrdinalsListed0091(i: u32)
    requires 0x0091 <= i < 0x00c1
    ensures Ole32DllLookup(i).Some?
  {
  }

  lemma OrdinalsListed00c1(i: u32)
    requires 0x00c1 <= i < 0x00f1
    ensures Ole32DllLookup(i).Some?
  {
  }

  lemma OrdinalsListed00f1(i: u32)
    requires 0x00f1 <= i < 0x0121
    ensures Ole32DllLookup(i).Some?
  {
  }

  lemma OrdinalsListed0121(i: u32)
    requires 0x0121 <= i < 0x0151
    ensures Ole32DllLookup(i).Some?
  {
  }

  lemma OrdinalsListed0151(i: u32)
    requires 0x0151 <= i < 0x0154
    ensures Ole32DllLookup(i).Some?
  {
  }

  /** Every ordinal from 0x0001 to 0x0153 has a name. */
  lemma OrdinalsListed(i: u32)
    requires 1 <= i <= 0x153
    ensures Ole32DllLookup(i).Some?
  {
    if i < 0x0031 {
      OrdinalsListed0001(i);
    } else if i < 0x0061 {
      OrdinalsListed0031(i);
    } else if i < 0x0091 {
      OrdinalsListed0061(i);
    } else if i < 0x00c1 {
      OrdinalsListed0091(i);
    } else if i < 0x00f1 {
      OrdinalsListed00c1(i);
    } else if i < 0x0121 {
      OrdinalsListed00f1(i);
    } else if i < 0x0151 {
      OrdinalsListed0121(i);
    } else if i < 0x0154 {
      OrdinalsListed0151(i);
    }
  }

  /** Ordinal 0 has no name. */
  lemma OrdinalZeroUnlisted()
    ensures Ole32DllLookup(0) == None
  {
  }

  /** No ordinal above 0x0153 has a name. */
  lemma OrdinalsAboveUnlisted(i: u32)
    requires 0x153 < i
    ensures Ole32DllLookup(i) == None
  {
  }

  /** Exactly the ordinals 0x0001 to 0x0153 have a name. */
  lemma Ole32Domain(i: u32)
    ensures Ole32DllLookup(i).Some? <==> 1 <= i <= 0x153
  {
    if 1 <= i <= 0x153 {
      OrdinalsListed(i);
    } else if i == 0 {
      OrdinalZeroUnlisted();
    } else {
      OrdinalsAboveUnlisted(i);
    }
  }

  /** The name the table gives ordinal `i`, or the empty string when it
      gives none. */
  function Ole32Name(i: u32): (n: string)
    ensures n != "" <==> Ole32DllLookup(i).Some?
  {
    match Ole32DllLookup(i)
    case Some(n) => n
    case None => ""
  }

  /** The ordinal of the case label at position `k` of the table, counting
      from 0: ordinals 0x0002 to 0x011a, then 0x0001, then 0x011b to 0x0153. */
  function CaseOrdinal(k: nat): (i: u32)
    requires k < CaseCount
    ensures 1 <= i <= 0x153
  {
    if k < 0x119 then k + 2 else if k == 0x119 then 1 else k + 1
  }

  /** The position in the table of the case label for ordinal `i`. */
  function CasePosition(i: u32): (k: nat)
    requires 1 <= i <= 0x153
    ensures k < CaseCount && CaseOrdinal(k) == i
  {
    if i == 1 then 0x119 else if i <= 0x11a then i - 2 else i - 1
  }

  /** `a` and `b` agree on their first `k` characters, and `k` is the end of
      `a` or a position where `a` has the smaller character. */
  predicate DivergesAt(a: string, b: string, k: nat)
  {
    k <= |a| && k < |b| && a[..k] == b[..k] && (k == |a| || a[k] < b[k])
  }

  /** Strict lexicographic order on strings, by character code. */
  ghost predicate Precedes(a: string, b: string)
  {
    exists k: nat :: DivergesAt(a, b, k)
  }

  lemma PrecedesIrreflexive(a: string)
    ensures !Precedes(a, a)
  {
  }

  lemma PrecedesTransitive(a: string, b: string, c: string)
    requires Precedes(a, b) && Precedes(b, c)
    ensures Precedes(a, c)
  {
    var k1: nat :| DivergesAt(a, b, k1);
    var k2: nat :| DivergesAt(b, c, k2);
    if k1 < k2 {
      assert a[..k1] == c[..k1] by {
        assert b[..k2][..k1] == b[..k1];
      }
      if k1 < |a| {
        assert b[k1] == b[..k2][k1] == c[..k2][k1] == c[k1];
      }
      assert DivergesAt(a, c, k1);
    } else {
      assert a[..k2] == c[..k2] by {
        assert a[..k1][..k2] == a[..k2];
        assert b[..k1][..k2] == b[..k2];
      }
      if k2 < k1 {
        assert a[k2] == a[..k1][k2] == b[..k1][k2] == b[k2];
      }
      assert DivergesAt(a, c, k2);
    }
  }

  /** The names of ordinals 0x0002 to 0x0007 ascend. */
  lemma NamesAscendFrom0002()
    ensures DivergesAt(Ole32Name(0x0002), Ole32Name(0x0003), 0)
    ensures DivergesAt(Ole32Name(0x0003), Ole32Name(0x0004), 15)
    ensures DivergesAt(Ole32Name(0x0004), Ole32Name(0x0005), 15)
    ensures DivergesAt(Ole32Name(0x0005), Ole32Name(0x0006), 15)
    ensures DivergesAt(Ole32Name(0x0006), Ole32Name(0x0007), 2)
  {
  }

  lemma SuccessorNamesAscendFrom0002(i: u32)
    requires 0x0002 <= i < 0x0007
    ensures Precedes(Ole32Name(i), Ole32Name(i + 1))
  {
    NamesAscendFrom0002();
  }

  /** The names of ordinals 0x0007 to 0x000c ascend. */
  lemma NamesAscendFrom0007()
    ensures DivergesAt(Ole32Name(0x0007), Ole32Name(0x0008), 9)
    ensures DivergesAt(Ole32Name(0x0008), Ole32Name(0x0009), 15)
    ensures DivergesAt(Ole32Name(0x0009), Ole32Name(0x000a), 9)
    ensures DivergesAt(Ole32Name(0x000a), Ole32Name(0x000b), 1)
    ensures DivergesAt(Ole32Name(0x000b), Ole32Name(0x000c), 3)
  {
  }

  lemma SuccessorNamesAscendFrom0007(i: u32)
    requires 0x0007 <= i < 0x000c
    ensures Precedes(Ole32Name(i), Ole32Name(i + 1))
  {
    NamesAscendFrom0007();
  }

  /** The names of ordinals 0x000c to 0x0011 ascend. */
  lemma NamesAscendFrom000c()
    ensures DivergesAt(Ole32Name(0x000c), Ole32Name(0x000d), 2)
    ensures DivergesAt(Ole32Name(0x000d), Ole32Name(0x000e), 2)
    ensures DivergesAt(Ole32Name(0x000e), Ole32Name(0x000f), 3)
    ensures DivergesAt(Ole32Name(0x000f), Ole32Name(0x0010), 3)
    ensures DivergesAt(Ole32Name(0x0010), Ole32Name(0x0011), 8)
  {
  }

  lemma SuccessorNamesAscendFrom000c(i: u32)
    requires 0x000c <= i < 0x0011
    ensures Precedes(Ole32Name(i), Ole32Name(i + 1))
  {
    NamesAscendFrom000c();
  }

  /** The names of ordinals 0x0011 to 0x0016 ascend. */
  lemma NamesAscendFrom0011()
    ensures DivergesAt(Ole32Name(0x0011), Ole32Name(0x0012), 8)
    ensures DivergesAt(Ole32Name(0x0012), Ole32Name(0x0013), 16)
    ensures DivergesAt(Ole32Name(0x0013), Ole32Name(0x0014), 8)
    ensures DivergesAt(Ole32Name(0x0014), Ole32Name(0x0015), 2)
    ensures DivergesAt(Ole32Name(0x0015), Ole32Name(0x0016), 3)
  {
  }

  lemma SuccessorNamesAscendFrom0011(i: u32)
    requires 0x0011 <= i < 0x0016
    ensures Precedes(Ole32Name(i), Ole32Name(i + 1))
  {
    NamesAscendFrom0011();
  }

  /** The names of ordinals 0x0016 to 0x001b ascend. */
  lemma NamesAscendFrom0016()
    ensures DivergesAt(Ole32Name(0x0016), Ole32Name(0x0017), 5)
    ensures DivergesAt(Ole32Name(0x0017), Ole32Name(0x0018), 3)
    ensures DivergesAt(Ole32Name(0x0018), Ole32Name(0x0019), 2)
    ensures DivergesAt(Ole32Name(0x0019), Ole32Name(0x001a), 2)
    ensures DivergesAt(Ole32Name(0x001a), Ole32Name(0x001b), 10)
  {
  }

  lemma SuccessorNamesAscendFrom0016(i: u32)
    requires 0x0016 <= i < 0x001b
    ensures Precedes(Ole32Name(i), Ole32Name(i + 1))
  {
    NamesAscendFrom0016();
  }

  /** The names of ordinals 0x001b to 0x0020 ascend. */
  lemma NamesAscendFrom001b()
    ensures DivergesAt(Ole32Name(0x001b), Ole32Name(0x001c), 3)
    ensures DivergesAt(Ole32Name(0x001c), Ole32Name(0x001d), 6)
    ensures DivergesAt(Ole32Name(0x001d), Ole32Name(0x001e), 6)
    ensures DivergesAt(Ole32Name(0x001e), Ole32Name(0x001f), 21)
    ensures DivergesAt(Ole32Name(0x001f), Ole32Name(0x0020), 2)
  {
  }

  lemma SuccessorNamesAscendFrom001b(i: u32)
    requires 0x001b <= i < 0x0020
    ensures Precedes(Ole32Name(i), Ole32Name(i + 1))
  {
    NamesAscendFrom001b();
  }

  /** The names of ordinals 0x0020 to 0x0025 ascend. */
  lemma NamesAscendFrom0020()
    ensures DivergesAt(Ole32Name(0x0020), Ole32Name(0x0021), 5)
    ensures DivergesAt(Ole32Name(0x0021), Ole32Name(0x0022), 9)
    ensures DivergesAt(Ole32Name(0x0022), Ole32Name(0x0023), 7)
    ensures DivergesAt(Ole32Name(0x0023), Ole32Name(0x0024), 6)
    ensures DivergesAt(Ole32Name(0x0024), Ole32Name(0x0025), 10)
  {
  }

  lemma SuccessorNamesAscendFrom0020(i: u32)
    requires 0x0020 <= i < 0x0025
    ensures Precedes(Ole32Name(i), Ole32Name(i + 1))
  {
    NamesAscendFrom0020();
  }

  /** The names of ordinals 0x0025 to 0x002a ascend. */
  lemma NamesAscendFrom0025()
    ensures DivergesAt(Ole32Name(0x0025), Ole32Name(0x0026), 6)
    ensures DivergesAt(Ole32Name(0x0026), Ole32Name(0x0027), 7)
    ensures DivergesAt(Ole32Name(0x0027), Ole32Name(0x0028), 6)
    ensures DivergesAt(Ole32Name(0x0028), Ole32Name(0x0029), 12)
    ensures DivergesAt(Ole32Name(0x0029), Ole32Name(0x002a), 5)
  {
  }

  lemma SuccessorNamesAscendFrom0025(i: u32)
    requires 0x0025 <= i < 0x002a
    ensures Precedes(Ole32Name(i), Ole32Name(i + 1))
  {
    NamesAscendFrom0025();
  }

  /** The names of ordinals 0x002a to 0x002f ascend. */
  lemma NamesAscendFrom002a()
    ensures DivergesAt(Ole32Name(0x002a), Ole32Name(0x002b), 5)
    ensures DivergesAt(Ole32Name(0x002b), Ole32Name(0x002c), 17)
    ensures DivergesAt(Ole32Name(0x002c), Ole32Name(0x002d), 7)
    ensures DivergesAt(Ole32Name(0x002d), Ole32Name(0x002e), 16)
    ensures DivergesAt(Ole32Name(0x002e), Ole32Name(0x002f), 10)
  {
  }

  lemma SuccessorNamesAscendFrom002a(i: u32)
    requires 0x002a <= i < 0x002f
    ensures Precedes(Ole32Name(i), Ole32Name(i + 1))
  {
    NamesAscendFrom002a();
  }

  /** The names of ordinals 0x002f to 0x0034 ascend. */
  lemma NamesAscendFrom002f()
    ensures DivergesAt(Ole32Name(0x002f), Ole32Name(0x0030), 5)
    ensures DivergesAt(Ole32Name(0x0030), Ole32Name(0x0031), 7)
    ensures DivergesAt(Ole32Name(0x0031), Ole32Name(0x0032), 5)
    ensures DivergesAt(Ole32Name(0x0032), Ole32Name(0x0033), 11)
    ensures DivergesAt(Ole32Name(0x0033), Ole32Name(0x0034), 5)
  {
  }

  lemma SuccessorNamesAscendFrom002f(i: u32)
    requires 0x002f <= i < 0x0034
    ensures Precedes(Ole32Name(i), Ole32Name(i + 1))
  {
    NamesAscendFrom002f();
  }

  /** The names of ordinals 0x0034 to 0x0039 ascend. */
  lemma NamesAscendFrom0034()
    ensures DivergesAt(Ole32Name(0x0034), Ole32Name(0x0035), 6)
    ensures DivergesAt(Ole32Name(0x0035), Ole32Name(0x0036), 5)
    ensures DivergesAt(Ole32Name(0x0036), Ole32Name(0x0037), 8)
    ensures DivergesAt(Ole32Name(0x0037), Ole32Name(0x0038), 7)
    ensures DivergesAt(Ole32Name(0x0038), Ole32Name(0x0039), 6)
  {
  }

  lemma SuccessorNamesAscendFrom0034(i: u32)
    requires 0x0034 <= i < 0x0039
    ensures Precedes(Ole32Name(i), Ole32Name(i + 1))
  {
    NamesAscendFrom0034();
  }

  /** The names of ordinals 0x0039 to 0x003e ascend. */
  lemma NamesAscendFrom0039()
    ensures DivergesAt(Ole32Name(0x0039), Ole32Name(0x003a), 5)
    ensures DivergesAt(Ole32Name(0x003a), Ole32Name(0x003b), 2)
    ensures DivergesAt(Ole32Name(0x003b), Ole32Name(0x003c), 3)
    ensures DivergesAt(Ole32Name(0x003c), Ole32Name(0x003d), 12)
    ensures DivergesAt(Ole32Name(0x003d), Ole32Name(0x003e), 12)
  {
  }

  lemma SuccessorNamesAscendFrom0039(i: u32)
    requires 0x0039 <= i < 0x003e
    ensures Precedes(Ole32Name(i), Ole32Name(i + 1))
  {
    NamesAscendFrom0039();
  }

  /** The names of ordinals 0x003e to 0x0043 ascend. */
  lemma NamesAscendFrom003e()
    ensures DivergesAt(Ole32Name(0x003e), Ole32Name(0x003f), 12)
    ensures DivergesAt(Ole32Name(0x003f), Ole32Name(0x0040), 4)
    ensures DivergesAt(Ole32Name(0x0040), Ole32Name(0x0041), 4)
    ensures DivergesAt(Ole32Name(0x0041), Ole32Name(0x0042), 3)
    ensures DivergesAt(Ole32Name(0x0042), Ole32Name(0x0043), 4)
  {
  }

  lemma SuccessorNamesAscendFrom003e(i: u32)
    requires 0x003e <= i < 0x0043
    ensures Precedes(Ole32Name(i), Ole32Name(i + 1))
  {
    NamesAscendFrom003e();
  }

  /** The names of ordinals 0x0043 to 0x0048 ascend. */
  lemma NamesAscendFrom0043()
    ensures DivergesAt(Ole32Name(0x0043), Ole32Name(0x0044), 2)
    ensures DivergesAt(Ole32Name(0x0044), Ole32Name(0x0045), 4)
    ensures DivergesAt(Ole32Name(0x0045), Ole32Name(0x0046), 2)
    ensures DivergesAt(Ole32Name(0x0046), Ole32Name(0x0047), 9)
    ensures DivergesAt(Ole32Name(0x0047), Ole32Name(0x0048), 14)
  {
  }

  lemma SuccessorNamesAscendFrom0043(i: u32)
    requires 0x0043 <= i < 0x0048
    ensures Precedes(Ole32Name(i), Ole32Name(i + 1))
  {
    NamesAscendFrom0043();
  }

  /** The names of ordinals 0x0048 to 0x004d ascend. */
  lemma NamesAscendFrom0048()
    ensures DivergesAt(Ole32Name(0x0048), Ole32Name(0x0049), 2)
    ensures DivergesAt(Ole32Name(0x0049), Ole32Name(0x004a), 3)
    ensures DivergesAt(Ole32Name(0x004a), Ole32Name(0x004b), 2)
    ensures DivergesAt(Ole32Name(0x004b), Ole32Name(0x004c), 7)
    ensures DivergesAt(Ole32Name(0x004c), Ole32Name(0x004d), 7)
  {
  }

  lemma SuccessorNamesAscendFrom0048(i: u32)
    requires 0x0048 <= i < 0x004d
    ensures Precedes(Ole32Name(i), Ole32Name(i + 1))
  {
    NamesAscendFrom0048();
  }

  /** The names of ordinals 0x004d to 0x0052 ascend. */
  lemma NamesAscendFrom004d()
    ensures DivergesAt(Ole32Name(0x004d), Ole32Name(0x004e), 7)
    ensures DivergesAt(Ole32Name(0x004e), Ole32Name(0x004f), 2)
    ensures DivergesAt(Ole32Name(0x004f), Ole32Name(0x0050), 4)
    ensures DivergesAt(Ole32Name(0x0050), Ole32Name(0x0051), 11)
    ensures DivergesAt(Ole32Name(0x0051), Ole32Name(0x0052), 10)
  {
  }

  lemma SuccessorNamesAscendFrom004d(i: u32)
    requires 0x004d <= i < 0x0052
    ensures Precedes(Ole32Name(i), Ole32Name(i + 1))
  {
    NamesAscendFrom004d();
  }

  /** The names of ordinals 0x0052 to 0x0057 ascend. */
  lemma NamesAscendFrom0052()
    ensures DivergesAt(Ole32Name(0x0052), Ole32Name(0x0053), 10)
    ensures DivergesAt(Ole32Name(0x0053), Ole32Name(0x0054), 11)
    ensures DivergesAt(Ole32Name(0x0054), Ole32Name(0x0055), 10)
    ensures DivergesAt(Ole32Name(0x0055), Ole32Name(0x0056), 10)
    ensures DivergesAt(Ole32Name(0x0056), Ole32Name(0x0057), 19)
  {
  }

  lemma SuccessorNamesAscendFrom0052(i: u32)
    requires 0x0052 <= i < 0x0057
    ensures Precedes(Ole32Name(i), Ole32Name(i + 1))
  {
    NamesAscendFrom0052();
  }

  /** The names of ordinals 0x0057 to 0x005c ascend. */
  lemma NamesAscendFrom0057()
    ensures DivergesAt(Ole32Name(0x0057), Ole32Name(0x0058), 4)
    ensures DivergesAt(Ole32Name(0x0058), Ole32Name(0x0059), 9)
    ensures DivergesAt(Ole32Name(0x0059), Ole32Name(0x005a), 4)
    ensures DivergesAt(Ole32Name(0x005a), Ole32Name(0x005b), 4)
    ensures DivergesAt(Ole32Name(0x005b), Ole32Name(0x005c), 4)
  {
  }

  lemma SuccessorNamesAscendFrom0057(i: u32)
    requires 0x0057 <= i < 0x005c
    ensures Precedes(Ole32Name(i), Ole32Name(i + 1))
  {
    NamesAscendFrom0057();
  }

  /** The names of ordinals 0x005c to 0x0061 ascend. */
  lemma NamesAscendFrom005c()
    ensures DivergesAt(Ole32Name(0x005c), Ole32Name(0x005d), 5)
    ensures DivergesAt(Ole32Name(0x005d), Ole32Name(0x005e), 8)
    ensures DivergesAt(Ole32Name(0x005e), Ole32Name(0x005f), 8)
    ensures DivergesAt(Ole32Name(0x005f), Ole32Name(0x0060), 2)
    ensures DivergesAt(Ole32Name(0x0060), Ole32Name(0x0061), 5)
  {
  }

  lemma SuccessorNamesAscendFrom005c(i: u32)
    requires 0x005c <= i < 0x0061
    ensures Precedes(Ole32Name(i), Ole32Name(i + 1))
  {
    NamesAscendFrom005c();
  }

  /** The names of ordinals 0x0061 to 0x0066 ascend. */
  lemma NamesAscendFrom0061()
    ensures DivergesAt(Ole32Name(0x0061), Ole32Name(0x0062), 5)
    ensures DivergesAt(Ole32Name(0x0062), Ole32Name(0x0063), 3)
    ensures DivergesAt(Ole32Name(0x0063), Ole32Name(0x0064), 3)
    ensures DivergesAt(Ole32Name(0x0064), Ole32Name(0x0065), 2)
    ensures DivergesAt(Ole32Name(0x0065), Ole32Name(0x0066), 9)
  {
  }

  lemma SuccessorNamesAscendFrom0061(i: u32)
    requires 0x0061 <= i < 0x0066
    ensures Precedes(Ole32Name(i), Ole32Name(i + 1))
  {
    NamesAscendFrom0061();
  }

  /** The names of ordinals 0x0066 to 0x006b ascend. */
  lemma NamesAscendFrom0066()
    ensures DivergesAt(Ole32Name(0x0066), Ole32Name(0x0067), 9)
    ensures DivergesAt(Ole32Name(0x0067), Ole32Name(0x0068), 3)
    ensures DivergesAt(Ole32Name(0x0068), Ole32Name(0x0069), 3)
    ensures DivergesAt(Ole32Name(0x0069), Ole32Name(0x006a), 2)
    ensures DivergesAt(Ole32Name(0x006a), Ole32Name(0x006b), 4)
  {
  }

  lemma SuccessorNamesAscendFrom0066(i: u32)
    requires 0x0066 <= i < 0x006b
    ensures Precedes(Ole32Name(i), Ole32Name(i + 1))
  {
    NamesAscendFrom0066();
  }

  /** The names of ordinals 0x006b to 0x0070 ascend. */
  lemma NamesAscendFrom006b()
    ensures DivergesAt(Ole32Name(0x006b), Ole32Name(0x006c), 4)
    ensures DivergesAt(Ole32Name(0x006c), Ole32Name(0x006d), 11)
    ensures DivergesAt(Ole32Name(0x006d), Ole32Name(0x006e), 2)
    ensures DivergesAt(Ole32Name(0x006e), Ole32Name(0x006f), 2)
    ensures DivergesAt(Ole32Name(0x006f), Ole32Name(0x0070), 21)
  {
  }

  lemma SuccessorNamesAscendFrom006b(i: u32)
    requires 0x006b <= i < 0x0070
    ensures Precedes(Ole32Name(i), Ole32Name(i + 1))
  {
    NamesAscendFrom006b();
  }

  /** The names of ordinals 0x0070 to 0x0075 ascend. */
  lemma NamesAscendFrom0070()
    ensures DivergesAt(Ole32Name(0x0070), Ole32Name(0x0071), 23)
    ensures DivergesAt(Ole32Name(0x0071), Ole32Name(0x0072), 21)
    ensures DivergesAt(Ole32Name(0x0072), Ole32Name(0x0073), 32)
    ensures DivergesAt(Ole32Name(0x0073), Ole32Name(0x0074), 22)
    ensures DivergesAt(Ole32Name(0x0074), Ole32Name(0x0075), 21)
  {
  }

  lemma SuccessorNamesAscendFrom0070(i: u32)
    requires 0x0070 <= i < 0x0075
    ensures Precedes(Ole32Name(i), Ole32Name(i + 1))
  {
    NamesAscendFrom0070();
  }

  /** The names of ordinals 0x0075 to 0x007a ascend. */
  lemma NamesAscendFrom0075()
    ensures DivergesAt(Ole32Name(0x0075), Ole32Name(0x0076), 22)
    ensures DivergesAt(Ole32Name(0x0076), Ole32Name(0x0077), 21)
    ensures DivergesAt(Ole32Name(0x0077), Ole32Name(0x0078), 6)
    ensures DivergesAt(Ole32Name(0x0078), Ole32Name(0x0079), 15)
    ensures DivergesAt(Ole32Name(0x0079), Ole32Name(0x007a), 15)
  {
  }

  lemma SuccessorNamesAscendFrom0075(i: u32)
    requires 0x0075 <= i < 0x007a
    ensures Precedes(Ole32Name(i), Ole32Name(i + 1))
  {
    NamesAscendFrom0075();
  }

  /** The names of ordinals 0x007a to 0x007f ascend. */
  lemma NamesAscendFrom007a()
    ensures DivergesAt(Ole32Name(0x007a), Ole32Name(0x007b), 6)
    ensures DivergesAt(Ole32Name(0x007b), Ole32Name(0x007c), 23)
    ensures DivergesAt(Ole32Name(0x007c), Ole32Name(0x007d), 10)
    ensures DivergesAt(Ole32Name(0x007d), Ole32Name(0x007e), 20)
    ensures DivergesAt(Ole32Name(0x007e), Ole32Name(0x007f), 9)
  {
  }

  lemma SuccessorNamesAscendFrom007a(i: u32)
    requires 0x007a <= i < 0x007f
    ensures Precedes(Ole32Name(i), Ole32Name(i + 1))
  {
    NamesAscendFrom007a();
  }

  /** The names of ordinals 0x007f to 0x0084 ascend. */
  lemma NamesAscendFrom007f()
    ensures DivergesAt(Ole32Name(0x007f), Ole32Name(0x0080), 12)
    ensures DivergesAt(Ole32Name(0x0080), Ole32Name(0x0081), 12)
    ensures DivergesAt(Ole32Name(0x0081), Ole32Name(0x0082), 12)
    ensures DivergesAt(Ole32Name(0x0082), Ole32Name(0x0083), 9)
    ensures DivergesAt(Ole32Name(0x0083), Ole32Name(0x0084), 13)
  {
  }

  lemma SuccessorNamesAscendFrom007f(i: u32)
    requires 0x007f <= i < 0x0084
    ensures Precedes(Ole32Name(i), Ole32Name(i + 1))
  {
    NamesAscendFrom007f();
  }

  /** The names of ordinals 0x0084 to 0x0089 ascend. */
  lemma NamesAscendFrom0084()
    ensures DivergesAt(Ole32Name(0x0084), Ole32Name(0x0085), 1)
    ensures DivergesAt(Ole32Name(0x0085), Ole32Name(0x0086), 6)
    ensures DivergesAt(Ole32Name(0x0086), Ole32Name(0x0087), 6)
    ensures DivergesAt(Ole32Name(0x0087), Ole32Name(0x0088), 6)
    ensures DivergesAt(Ole32Name(0x0088), Ole32Name(0x0089), 10)
  {
  }

  lemma SuccessorNamesAscendFrom0084(i: u32)
    requires 0x0084 <= i < 0x0089
    ensures Precedes(Ole32Name(i), Ole32Name(i + 1))
  {
    NamesAscendFrom0084();
  }

  /** The names of ordinals 0x0089 to 0x008e ascend. */
  lemma NamesAscendFrom0089()
    ensures DivergesAt(Ole32Name(0x0089), Ole32Name(0x008a), 6)
    ensures DivergesAt(Ole32Name(0x008a), Ole32Name(0x008b), 6)
    ensures DivergesAt(Ole32Name(0x008b), Ole32Name(0x008c), 6)
    ensures DivergesAt(Ole32Name(0x008c), Ole32Name(0x008d), 6)
    ensures DivergesAt(Ole32Name(0x008d), Ole32Name(0x008e), 7)
  {
  }

  lemma SuccessorNamesAscendFrom0089(i: u32)
    requires 0x0089 <= i < 0x008e
    ensures Precedes(Ole32Name(i), Ole32Name(i + 1))
  {
    NamesAscendFrom0089();
  }

  /** The names of ordinals 0x008e to 0x0093 ascend. */
  lemma NamesAscendFrom008e()
    ensures DivergesAt(Ole32Name(0x008e), Ole32Name(0x008f), 6)
    ensures DivergesAt(Ole32Name(0x008f), Ole32Name(0x0090), 7)
    ensures DivergesAt(Ole32Name(0x0090), Ole32Name(0x0091), 6)
    ensures DivergesAt(Ole32Name(0x0091), Ole32Name(0x0092), 6)
    ensures DivergesAt(Ole32Name(0x0092), Ole32Name(0x0093), 8)
  {
  }

  lemma SuccessorNamesAscendFrom008e(i: u32)
    requires 0x008e <= i < 0x0093
    ensures Precedes(Ole32Name(i), Ole32Name(i + 1))
  {
    NamesAscendFrom008e();
  }

  /** The names of ordinals 0x0093 to 0x0098 ascend. */
  lemma NamesAscendFrom0093()
    ensures DivergesAt(Ole32Name(0x0093), Ole32Name(0x0094), 0)
    ensures DivergesAt(Ole32Name(0x0094), Ole32Name(0x0095), 1)
    ensures DivergesAt(Ole32Name(0x0095), Ole32Name(0x0096), 3)
    ensures DivergesAt(Ole32Name(0x0096), Ole32Name(0x0097), 17)
    ensures DivergesAt(Ole32Name(0x0097), Ole32Name(0x0098), 3)
  {
  }

  lemma SuccessorNamesAscendFrom0093(i: u32)
    requires 0x0093 <= i < 0x0098
    ensures Precedes(Ole32Name(i), Ole32Name(i + 1))
  {
    NamesAscendFrom0093();
  }

  /** The names of ordinals 0x0098 to 0x009d ascend. */
  lemma NamesAscendFrom0098()
    ensures DivergesAt(Ole32Name(0x0098), Ole32Name(0x0099), 1)
    ensures DivergesAt(Ole32Name(0x0099), Ole32Name(0x009a), 0)
    ensures DivergesAt(Ole32Name(0x009a), Ole32Name(0x009b), 0)
    ensures DivergesAt(Ole32Name(0x009b), Ole32Name(0x009c), 1)
    ensures DivergesAt(Ole32Name(0x009c), Ole32Name(0x009d), 0)
  {
  }

  lemma SuccessorNamesAscendFrom0098(i: u32)
    requires 0x0098 <= i < 0x009d
    ensures Precedes(Ole32Name(i), Ole32Name(i + 1))
  {
    NamesAscendFrom0098();
  }

  /** The names of ordinals 0x009d to 0x00a2 ascend. */
  lemma NamesAscendFrom009d()
    ensures DivergesAt(Ole32Name(0x009d), Ole32Name(0x009e), 4)
    ensures DivergesAt(Ole32Name(0x009e), Ole32Name(0x009f), 3)
    ensures DivergesAt(Ole32Name(0x009f), Ole32Name(0x00a0), 3)
    ensures DivergesAt(Ole32Name(0x00a0), Ole32Name(0x00a1), 3)
    ensures DivergesAt(Ole32Name(0x00a1), Ole32Name(0x00a2), 14)
  {
  }

  lemma SuccessorNamesAscendFrom009d(i: u32)
    requires 0x009d <= i < 0x00a2
    ensures Precedes(Ole32Name(i), Ole32Name(i + 1))
  {
    NamesAscendFrom009d();
  }

  /** The names of ordinals 0x00a2 to 0x00a7 ascend. */
  lemma NamesAscendFrom00a2()
    ensures DivergesAt(Ole32Name(0x00a2), Ole32Name(0x00a3), 4)
    ensures DivergesAt(Ole32Name(0x00a3), Ole32Name(0x00a4), 3)
    ensures DivergesAt(Ole32Name(0x00a4), Ole32Name(0x00a5), 0)
    ensures DivergesAt(Ole32Name(0x00a5), Ole32Name(0x00a6), 11)
    ensures DivergesAt(Ole32Name(0x00a6), Ole32Name(0x00a7), 11)
  {
  }

  lemma SuccessorNamesAscendFrom00a2(i: u32)
    requires 0x00a2 <= i < 0x00a7
    ensures Precedes(Ole32Name(i), Ole32Name(i + 1))
  {
    NamesAscendFrom00a2();
  }

  /** The names of ordinals 0x00a7 to 0x00ac ascend. */
  lemma NamesAscendFrom00a7()
    ensures DivergesAt(Ole32Name(0x00a7), Ole32Name(0x00a8), 11)
    ensures DivergesAt(Ole32Name(0x00a8), Ole32Name(0x00a9), 1)
    ensures DivergesAt(Ole32Name(0x00a9), Ole32Name(0x00aa), 12)
    ensures DivergesAt(Ole32Name(0x00aa), Ole32Name(0x00ab), 12)
    ensures DivergesAt(Ole32Name(0x00ab), Ole32Name(0x00ac), 12)
  {
  }

  lemma SuccessorNamesAscendFrom00a7(i: u32)
    requires 0x00a7 <= i < 0x00ac
    ensures Precedes(Ole32Name(i), Ole32Name(i + 1))
  {
    NamesAscendFrom00a7();
  }

  /** The names of ordinals 0x00ac to 0x00b1 ascend. */
  lemma NamesAscendFrom00ac()
    ensures DivergesAt(Ole32Name(0x00ac), Ole32Name(0x00ad), 2)
    ensures DivergesAt(Ole32Name(0x00ad), Ole32Name(0x00ae), 11)
    ensures DivergesAt(Ole32Name(0x00ae), Ole32Name(0x00af), 11)
    ensures DivergesAt(Ole32Name(0x00af), Ole32Name(0x00b0), 11)
    ensures DivergesAt(Ole32Name(0x00b0), Ole32Name(0x00b1), 1)
  {
  }

  lemma SuccessorNamesAscendFrom00ac(i: u32)
    requires 0x00ac <= i < 0x00b1
    ensures Precedes(Ole32Name(i), Ole32Name(i + 1))
  {
    NamesAscendFrom00ac();
  }

  /** The names of ordinals 0x00b1 to 0x00b6 ascend. */
  lemma NamesAscendFrom00b1()
    ensures DivergesAt(Ole32Name(0x00b1), Ole32Name(0x00b2), 8)
    ensures DivergesAt(Ole32Name(0x00b2), Ole32Name(0x00b3), 8)
    ensures DivergesAt(Ole32Name(0x00b3), Ole32Name(0x00b4), 8)
    ensures DivergesAt(Ole32Name(0x00b4), Ole32Name(0x00b5), 1)
    ensures DivergesAt(Ole32Name(0x00b5), Ole32Name(0x00b6), 17)
  {
  }

  lemma SuccessorNamesAscendFrom00b1(i: u32)
    requires 0x00b1 <= i < 0x00b6
    ensures Precedes(Ole32Name(i), Ole32Name(i + 1))
  {
    NamesAscendFrom00b1();
  }

  /** The names of ordinals 0x00b6 to 0x00bb ascend. */
  lemma NamesAscendFrom00b6()
    ensures DivergesAt(Ole32Name(0x00b6), Ole32Name(0x00b7), 17)
    ensures DivergesAt(Ole32Name(0x00b7), Ole32Name(0x00b8), 17)
    ensures DivergesAt(Ole32Name(0x00b8), Ole32Name(0x00b9), 1)
    ensures DivergesAt(Ole32Name(0x00b9), Ole32Name(0x00ba), 12)
    ensures DivergesAt(Ole32Name(0x00ba), Ole32Name(0x00bb), 12)
  {
  }

  lemma SuccessorNamesAscendFrom00b6(i: u32)
    requires 0x00b6 <= i < 0x00bb
    ensures Precedes(Ole32Name(i), Ole32Name(i + 1))
  {
    NamesAscendFrom00b6();
  }

  /** The names of ordinals 0x00bb to 0x00c0 ascend. */
  lemma NamesAscendFrom00bb()
    ensures DivergesAt(Ole32Name(0x00bb), Ole32Name(0x00bc), 12)
    ensures DivergesAt(Ole32Name(0x00bc), Ole32Name(0x00bd), 1)
    ensures DivergesAt(Ole32Name(0x00bd), Ole32Name(0x00be), 10)
    ensures DivergesAt(Ole32Name(0x00be), Ole32Name(0x00bf), 10)
    ensures DivergesAt(Ole32Name(0x00bf), Ole32Name(0x00c0), 10)
  {
  }

  lemma SuccessorNamesAscendFrom00bb(i: u32)
    requires 0x00bb <= i < 0x00c0
    ensures Precedes(Ole32Name(i), Ole32Name(i + 1))
  {
    NamesAscendFrom00bb();
  }

  /** The names of ordinals 0x00c0 to 0x00c5 ascend. */
  lemma NamesAscendFrom00c0()
    ensures DivergesAt(Ole32Name(0x00c0), Ole32Name(0x00c1), 1)
    ensures DivergesAt(Ole32Name(0x00c1), Ole32Name(0x00c2), 10)
    ensures DivergesAt(Ole32Name(0x00c2), Ole32Name(0x00c3), 10)
    ensures DivergesAt(Ole32Name(0x00c3), Ole32Name(0x00c4), 10)
    ensures DivergesAt(Ole32Name(0x00c4), Ole32Name(0x00c5), 3)
  {
  }

  lemma SuccessorNamesAscendFrom00c0(i: u32)
    requires 0x00c0 <= i < 0x00c5
    ensures Precedes(Ole32Name(i), Ole32Name(i + 1))
  {
    NamesAscendFrom00c0();
  }

  /** The names of ordinals 0x00c5 to 0x00ca ascend. */
  lemma NamesAscendFrom00c5()
    ensures DivergesAt(Ole32Name(0x00c5), Ole32Name(0x00c6), 18)
    ensures DivergesAt(Ole32Name(0x00c6), Ole32Name(0x00c7), 18)
    ensures DivergesAt(Ole32Name(0x00c7), Ole32Name(0x00c8), 18)
    ensures DivergesAt(Ole32Name(0x00c8), Ole32Name(0x00c9), 9)
    ensures DivergesAt(Ole32Name(0x00c9), Ole32Name(0x00ca), 14)
  {
  }

  lemma SuccessorNamesAscendFrom00c5(i: u32)
    requires 0x00c5 <= i < 0x00ca
    ensures Precedes(Ole32Name(i), Ole32Name(i + 1))
  {
    NamesAscendFrom00c5();
  }

  /** The names of ordinals 0x00ca to 0x00cf ascend. */
  lemma NamesAscendFrom00ca()
    ensures DivergesAt(Ole32Name(0x00ca), Ole32Name(0x00cb), 14)
    ensures DivergesAt(Ole32Name(0x00cb), Ole32Name(0x00cc), 14)
    ensures DivergesAt(Ole32Name(0x00cc), Ole32Name(0x00cd), 1)
    ensures DivergesAt(Ole32Name(0x00cd), Ole32Name(0x00ce), 13)
    ensures DivergesAt(Ole32Name(0x00ce), Ole32Name(0x00cf), 13)
  {
  }

  lemma SuccessorNamesAscendFrom00ca(i: u32)
    requires 0x00ca <= i < 0x00cf
    ensures Precedes(Ole32Name(i), Ole32Name(i + 1))
  {
    NamesAscendFrom00ca();
  }

  /** The names of ordinals 0x00cf to 0x00d4 ascend. */
  lemma NamesAscendFrom00cf()
    ensures DivergesAt(Ole32Name(0x00cf), Ole32Name(0x00d0), 13)
    ensures DivergesAt(Ole32Name(0x00d0), Ole32Name(0x00d1), 1)
    ensures DivergesAt(Ole32Name(0x00d1), Ole32Name(0x00d2), 9)
    ensures DivergesAt(Ole32Name(0x00d2), Ole32Name(0x00d3), 9)
    ensures DivergesAt(Ole32Name(0x00d3), Ole32Name(0x00d4), 9)
  {
  }

  lemma SuccessorNamesAscendFrom00cf(i: u32)
    requires 0x00cf <= i < 0x00d4
    ensures Precedes(Ole32Name(i), Ole32Name(i + 1))
  {
    NamesAscendFrom00cf();
  }

  /** The names of ordinals 0x00d4 to 0x00d9 ascend. */
  lemma NamesAscendFrom00d4()
    ensures DivergesAt(Ole32Name(0x00d4), Ole32Name(0x00d5), 1)
    ensures DivergesAt(Ole32Name(0x00d5), Ole32Name(0x00d6), 0)
    ensures DivergesAt(Ole32Name(0x00d6), Ole32Name(0x00d7), 1)
    ensures DivergesAt(Ole32Name(0x00d7), Ole32Name(0x00d8), 2)
    ensures DivergesAt(Ole32Name(0x00d8), Ole32Name(0x00d9), 2)
  {
  }

  lemma SuccessorNamesAscendFrom00d4(i: u32)
    requires 0x00d4 <= i < 0x00d9
    ensures Precedes(Ole32Name(i), Ole32Name(i + 1))
  {
    NamesAscendFrom00d4();
  }

  /** The names of ordinals 0x00d9 to 0x00de ascend. */
  lemma NamesAscendFrom00d9()
    ensures DivergesAt(Ole32Name(0x00d9), Ole32Name(0x00da), 8)
    ensures DivergesAt(Ole32Name(0x00da), Ole32Name(0x00db), 7)
    ensures DivergesAt(Ole32Name(0x00db), Ole32Name(0x00dc), 10)
    ensures DivergesAt(Ole32Name(0x00dc), Ole32Name(0x00dd), 0)
    ensures DivergesAt(Ole32Name(0x00dd), Ole32Name(0x00de), 1)
  {
  }

  lemma SuccessorNamesAscendFrom00d9(i: u32)
    requires 0x00d9 <= i < 0x00de
    ensures Precedes(Ole32Name(i), Ole32Name(i + 1))
  {
    NamesAscendFrom00d9();
  }

  /** The names of ordinals 0x00de to 0x00e3 ascend. */
  lemma NamesAscendFrom00de()
    ensures DivergesAt(Ole32Name(0x00de), Ole32Name(0x00df), 7)
    ensures DivergesAt(Ole32Name(0x00df), Ole32Name(0x00e0), 0)
    ensures DivergesAt(Ole32Name(0x00e0), Ole32Name(0x00e1), 3)
    ensures DivergesAt(Ole32Name(0x00e1), Ole32Name(0x00e2), 29)
    ensures DivergesAt(Ole32Name(0x00e2), Ole32Name(0x00e3), 10)
  {
  }

  lemma SuccessorNamesAscendFrom00de(i: u32)
    requires 0x00de <= i < 0x00e3
    ensures Precedes(Ole32Name(i), Ole32Name(i + 1))
  {
    NamesAscendFrom00de();
  }

  /** The names of ordinals 0x00e3 to 0x00e8 ascend. */
  lemma NamesAscendFrom00e3()
    ensures DivergesAt(Ole32Name(0x00e3), Ole32Name(0x00e4), 29)
    ensures DivergesAt(Ole32Name(0x00e4), Ole32Name(0x00e5), 4)
    ensures DivergesAt(Ole32Name(0x00e5), Ole32Name(0x00e6), 9)
    ensures DivergesAt(Ole32Name(0x00e6), Ole32Name(0x00e7), 9)
    ensures DivergesAt(Ole32Name(0x00e7), Ole32Name(0x00e8), 10)
  {
  }

  lemma SuccessorNamesAscendFrom00e3(i: u32)
    requires 0x00e3 <= i < 0x00e8
    ensures Precedes(Ole32Name(i), Ole32Name(i + 1))
  {
    NamesAscendFrom00e3();
  }

  /** The names of ordinals 0x00e8 to 0x00ed ascend. */
  lemma NamesAscendFrom00e8()
    ensures DivergesAt(Ole32Name(0x00e8), Ole32Name(0x00e9), 9)
    ensures DivergesAt(Ole32Name(0x00e9), Ole32Name(0x00ea), 17)
    ensures DivergesAt(Ole32Name(0x00ea), Ole32Name(0x00eb), 13)
    ensures DivergesAt(Ole32Name(0x00eb), Ole32Name(0x00ec), 17)
    ensures DivergesAt(Ole32Name(0x00ec), Ole32Name(0x00ed), 9)
  {
  }

  lemma SuccessorNamesAscendFrom00e8(i: u32)
    requires 0x00e8 <= i < 0x00ed
    ensures Precedes(Ole32Name(i), Ole32Name(i + 1))
  {
    NamesAscendFrom00e8();
  }

  /** The names of ordinals 0x00ed to 0x00f2 ascend. */
  lemma NamesAscendFrom00ed()
    ensures DivergesAt(Ole32Name(0x00ed), Ole32Name(0x00ee), 13)
    ensures DivergesAt(Ole32Name(0x00ee), Ole32Name(0x00ef), 13)
    ensures DivergesAt(Ole32Name(0x00ef), Ole32Name(0x00f0), 21)
    ensures DivergesAt(Ole32Name(0x00f0), Ole32Name(0x00f1), 13)
    ensures DivergesAt(Ole32Name(0x00f1), Ole32Name(0x00f2), 19)
  {
  }

  lemma SuccessorNamesAscendFrom00ed(i: u32)
    requires 0x00ed <= i < 0x00f2
    ensures Precedes(Ole32Name(i), Ole32Name(i + 1))
  {
    NamesAscendFrom00ed();
  }

  /** The names of ordinals 0x00f2 to 0x00f7 ascend. */
  lemma NamesAscendFrom00f2()
    ensures DivergesAt(Ole32Name(0x00f2), Ole32Name(0x00f3), 9)
    ensures DivergesAt(Ole32Name(0x00f3), Ole32Name(0x00f4), 9)
    ensures DivergesAt(Ole32Name(0x00f4), Ole32Name(0x00f5), 3)
    ensures DivergesAt(Ole32Name(0x00f5), Ole32Name(0x00f6), 4)
    ensures DivergesAt(Ole32Name(0x00f6), Ole32Name(0x00f7), 4)
  {
  }

  lemma SuccessorNamesAscendFrom00f2(i: u32)
    requires 0x00f2 <= i < 0x00f7
    ensures Precedes(Ole32Name(i), Ole32Name(i + 1))
  {
    NamesAscendFrom00f2();
  }

  /** The names of ordinals 0x00f7 to 0x00fc ascend. */
  lemma NamesAscendFrom00f7()
    ensures DivergesAt(Ole32Name(0x00f7), Ole32Name(0x00f8), 4)
    ensures DivergesAt(Ole32Name(0x00f8), Ole32Name(0x00f9), 3)
    ensures DivergesAt(Ole32Name(0x00f9), Ole32Name(0x00fa), 3)
    ensures DivergesAt(Ole32Name(0x00fa), Ole32Name(0x00fb), 6)
    ensures DivergesAt(Ole32Name(0x00fb), Ole32Name(0x00fc), 6)
  {
  }

  lemma SuccessorNamesAscendFrom00f7(i: u32)
    requires 0x00f7 <= i < 0x00fc
    ensures Precedes(Ole32Name(i), Ole32Name(i + 1))
  {
    NamesAscendFrom00f7();
  }

  /** The names of ordinals 0x00fc to 0x0101 ascend. */
  lemma NamesAscendFrom00fc()
    ensures DivergesAt(Ole32Name(0x00fc), Ole32Name(0x00fd), 12)
    ensures DivergesAt(Ole32Name(0x00fd), Ole32Name(0x00fe), 3)
    ensures DivergesAt(Ole32Name(0x00fe), Ole32Name(0x00ff), 13)
    ensures DivergesAt(Ole32Name(0x00ff), Ole32Name(0x0100), 4)
    ensures DivergesAt(Ole32Name(0x0100), Ole32Name(0x0101), 5)
  {
  }

  lemma SuccessorNamesAscendFrom00fc(i: u32)
    requires 0x00fc <= i < 0x0101
    ensures Precedes(Ole32Name(i), Ole32Name(i + 1))
  {
    NamesAscendFrom00fc();
  }

  /** The names of ordinals 0x0101 to 0x0106 ascend. */
  lemma NamesAscendFrom0101()
    ensures DivergesAt(Ole32Name(0x0101), Ole32Name(0x0102), 3)
    ensures DivergesAt(Ole32Name(0x0102), Ole32Name(0x0103), 7)
    ensures DivergesAt(Ole32Name(0x0103), Ole32Name(0x0104), 5)
    ensures DivergesAt(Ole32Name(0x0104), Ole32Name(0x0105), 3)
    ensures DivergesAt(Ole32Name(0x0105), Ole32Name(0x0106), 3)
  {
  }

  lemma SuccessorNamesAscendFrom0101(i: u32)
    requires 0x0101 <= i < 0x0106
    ensures Precedes(Ole32Name(i), Ole32Name(i + 1))
  {
    NamesAscendFrom0101();
  }

  /** The names of ordinals 0x0106 to 0x010b ascend. */
  lemma NamesAscendFrom0106()
    ensures DivergesAt(Ole32Name(0x0106), Ole32Name(0x0107), 3)
    ensures DivergesAt(Ole32Name(0x0107), Ole32Name(0x0108), 8)
    ensures DivergesAt(Ole32Name(0x0108), Ole32Name(0x0109), 3)
    ensures DivergesAt(Ole32Name(0x0109), Ole32Name(0x010a), 10)
    ensures DivergesAt(Ole32Name(0x010a), Ole32Name(0x010b), 6)
  {
  }

  lemma SuccessorNamesAscendFrom0106(i: u32)
    requires 0x0106 <= i < 0x010b
    ensures Precedes(Ole32Name(i), Ole32Name(i + 1))
  {
    NamesAscendFrom0106();
  }

  /** The names of ordinals 0x010b to 0x0110 ascend. */
  lemma NamesAscendFrom010b()
    ensures DivergesAt(Ole32Name(0x010b), Ole32Name(0x010c), 9)
    ensures DivergesAt(Ole32Name(0x010c), Ole32Name(0x010d), 4)
    ensures DivergesAt(Ole32Name(0x010d), Ole32Name(0x010e), 3)
    ensures DivergesAt(Ole32Name(0x010e), Ole32Name(0x010f), 7)
    ensures DivergesAt(Ole32Name(0x010f), Ole32Name(0x0110), 4)
  {
  }

  lemma SuccessorNamesAscendFrom010b(i: u32)
    requires 0x010b <= i < 0x0110
    ensures Precedes(Ole32Name(i), Ole32Name(i + 1))
  {
    NamesAscendFrom010b();
  }

  /** The names of ordinals 0x0110 to 0x0115 ascend. */
  lemma NamesAscendFrom0110()
    ensures DivergesAt(Ole32Name(0x0110), Ole32Name(0x0111), 6)
    ensures DivergesAt(Ole32Name(0x0111), Ole32Name(0x0112), 7)
    ensures DivergesAt(Ole32Name(0x0112), Ole32Name(0x0113), 6)
    ensures DivergesAt(Ole32Name(0x0113), Ole32Name(0x0114), 3)
    ensures DivergesAt(Ole32Name(0x0114), Ole32Name(0x0115), 3)
  {
  }

  lemma SuccessorNamesAscendFrom0110(i: u32)
    requires 0x0110 <= i < 0x0115
    ensures Precedes(Ole32Name(i), Ole32Name(i + 1))
  {
    NamesAscendFrom0110();
  }

  /** The names of ordinals 0x0115 to 0x011a ascend. */
  lemma NamesAscendFrom0115()
    ensures DivergesAt(Ole32Name(0x0115), Ole32Name(0x0116), 1)
    ensures DivergesAt(Ole32Name(0x0116), Ole32Name(0x0117), 0)
    ensures DivergesAt(Ole32Name(0x0117), Ole32Name(0x0118), 3)
    ensures DivergesAt(Ole32Name(0x0118), Ole32Name(0x0119), 5)
    ensures DivergesAt(Ole32Name(0x0119), Ole32Name(0x011a), 7)
  {
  }

  lemma SuccessorNamesAscendFrom0115(i: u32)
    requires 0x0115 <= i < 0x011a
    ensures Precedes(Ole32Name(i), Ole32Name(i + 1))
  {
    NamesAscendFrom0115();
  }

  /** The names of ordinals 0x011b to 0x0120 ascend. */
  lemma NamesAscendFrom011b()
    ensures DivergesAt(Ole32Name(0x011b), Ole32Name(0x011c), 12)
    ensures DivergesAt(Ole32Name(0x011c), Ole32Name(0x011d), 0)
    ensures DivergesAt(Ole32Name(0x011d), Ole32Name(0x011e), 11)
    ensures DivergesAt(Ole32Name(0x011e), Ole32Name(0x011f), 4)
    ensures DivergesAt(Ole32Name(0x011f), Ole32Name(0x0120), 4)
  {
  }

  lemma SuccessorNamesAscendFrom011b(i: u32)
    requires 0x011b <= i < 0x0120
    ensures Precedes(Ole32Name(i), Ole32Name(i + 1))
  {
    NamesAscendFrom011b();
  }

  /** The names of ordinals 0x0120 to 0x0125 ascend. */
  lemma NamesAscendFrom0120()
    ensures DivergesAt(Ole32Name(0x0120), Ole32Name(0x0121), 4)
    ensures DivergesAt(Ole32Name(0x0121), Ole32Name(0x0122), 2)
    ensures DivergesAt(Ole32Name(0x0122), Ole32Name(0x0123), 2)
    ensures DivergesAt(Ole32Name(0x0123), Ole32Name(0x0124), 2)
    ensures DivergesAt(Ole32Name(0x0124), Ole32Name(0x0125), 0)
  {
  }

  lemma SuccessorNamesAscendFrom0120(i: u32)
    requires 0x0120 <= i < 0x0125
    ensures Precedes(Ole32Name(i), Ole32Name(i + 1))
  {
    NamesAscendFrom0120();
  }

  /** The names of ordinals 0x0125 to 0x012a ascend. */
  lemma NamesAscendFrom0125()
    ensures DivergesAt(Ole32Name(0x0125), Ole32Name(0x0126), 8)
    ensures DivergesAt(Ole32Name(0x0126), Ole32Name(0x0127), 8)
    ensures DivergesAt(Ole32Name(0x0127), Ole32Name(0x0128), 8)
    ensures DivergesAt(Ole32Name(0x0128), Ole32Name(0x0129), 1)
    ensures DivergesAt(Ole32Name(0x0129), Ole32Name(0x012a), 14)
  {
  }

  lemma SuccessorNamesAscendFrom0125(i: u32)
    requires 0x0125 <= i < 0x012a
    ensures Precedes(Ole32Name(i), Ole32Name(i + 1))
  {
    NamesAscendFrom0125();
  }

  /** The names of ordinals 0x012a to 0x012f ascend. */
  lemma NamesAscendFrom012a()
    ensures DivergesAt(Ole32Name(0x012a), Ole32Name(0x012b), 14)
    ensures DivergesAt(Ole32Name(0x012b), Ole32Name(0x012c), 14)
    ensures DivergesAt(Ole32Name(0x012c), Ole32Name(0x012d), 1)
    ensures DivergesAt(Ole32Name(0x012d), Ole32Name(0x012e), 3)
    ensures DivergesAt(Ole32Name(0x012e), Ole32Name(0x012f), 3)
  {
  }

  lemma SuccessorNamesAscendFrom012a(i: u32)
    requires 0x012a <= i < 0x012f
    ensures Precedes(Ole32Name(i), Ole32Name(i + 1))
  {
    NamesAscendFrom012a();
  }

  /** The names of ordinals 0x012f to 0x0134 ascend. */
  lemma NamesAscendFrom012f()
    ensures DivergesAt(Ole32Name(0x012f), Ole32Name(0x0130), 1)
    ensures DivergesAt(Ole32Name(0x0130), Ole32Name(0x0131), 10)
    ensures DivergesAt(Ole32Name(0x0131), Ole32Name(0x0132), 4)
    ensures DivergesAt(Ole32Name(0x0132), Ole32Name(0x0133), 16)
    ensures DivergesAt(Ole32Name(0x0133), Ole32Name(0x0134), 9)
  {
  }

  lemma SuccessorNamesAscendFrom012f(i: u32)
    requires 0x012f <= i < 0x0134
    ensures Precedes(Ole32Name(i), Ole32Name(i + 1))
  {
    NamesAscendFrom012f();
  }

  /** The names of ordinals 0x0134 to 0x0139 ascend. */
  lemma NamesAscendFrom0134()
    ensures DivergesAt(Ole32Name(0x0134), Ole32Name(0x0135), 14)
    ensures DivergesAt(Ole32Name(0x0135), Ole32Name(0x0136), 9)
    ensures DivergesAt(Ole32Name(0x0136), Ole32Name(0x0137), 3)
    ensures DivergesAt(Ole32Name(0x0137), Ole32Name(0x0138), 22)
    ensures DivergesAt(Ole32Name(0x0138), Ole32Name(0x0139), 3)
  {
  }

  lemma SuccessorNamesAscendFrom0134(i: u32)
    requires 0x0134 <= i < 0x0139
    ensures Precedes(Ole32Name(i), Ole32Name(i + 1))
  {
    NamesAscendFrom0134();
  }

  /** The names of ordinals 0x0139 to 0x013e ascend. */
  lemma NamesAscendFrom0139()
    ensures DivergesAt(Ole32Name(0x0139), Ole32Name(0x013a), 12)
    ensures DivergesAt(Ole32Name(0x013a), Ole32Name(0x013b), 3)
    ensures DivergesAt(Ole32Name(0x013b), Ole32Name(0x013c), 7)
    ensures DivergesAt(Ole32Name(0x013c), Ole32Name(0x013d), 7)
    ensures DivergesAt(Ole32Name(0x013d), Ole32Name(0x013e), 14)
  {
  }

  lemma SuccessorNamesAscendFrom0139(i: u32)
    requires 0x0139 <= i < 0x013e
    ensures Precedes(Ole32Name(i), Ole32Name(i + 1))
  {
    NamesAscendFrom0139();
  }

  /** The names of ordinals 0x013e to 0x0143 ascend. */
  lemma NamesAscendFrom013e()
    ensures DivergesAt(Ole32Name(0x013e), Ole32Name(0x013f), 14)
    ensures DivergesAt(Ole32Name(0x013f), Ole32Name(0x0140), 16)
    ensures DivergesAt(Ole32Name(0x0140), Ole32Name(0x0141), 3)
    ensures DivergesAt(Ole32Name(0x0141), Ole32Name(0x0142), 3)
    ensures DivergesAt(Ole32Name(0x0142), Ole32Name(0x0143), 2)
  {
  }

  lemma SuccessorNamesAscendFrom013e(i: u32)
    requires 0x013e <= i < 0x0143
    ensures Precedes(Ole32Name(i), Ole32Name(i + 1))
  {
    NamesAscendFrom013e();
  }

  /** The names of ordinals 0x0143 to 0x0148 ascend. */
  lemma NamesAscendFrom0143()
    ensures DivergesAt(Ole32Name(0x0143), Ole32Name(0x0144), 10)
    ensures DivergesAt(Ole32Name(0x0144), Ole32Name(0x0145), 10)
    ensures DivergesAt(Ole32Name(0x0145), Ole32Name(0x0146), 0)
    ensures DivergesAt(Ole32Name(0x0146), Ole32Name(0x0147), 1)
    ensures DivergesAt(Ole32Name(0x0147), Ole32Name(0x0148), 13)
  {
  }

  lemma SuccessorNamesAscendFrom0143(i: u32)
    requires 0x0143 <= i < 0x0148
    ensures Precedes(Ole32Name(i), Ole32Name(i + 1))
  {
    NamesAscendFrom0143();
  }

  /** The names of ordinals 0x0148 to 0x014d ascend. */
  lemma NamesAscendFrom0148()
    ensures DivergesAt(Ole32Name(0x0148), Ole32Name(0x0149), 2)
    ensures DivergesAt(Ole32Name(0x0149), Ole32Name(0x014a), 9)
    ensures DivergesAt(Ole32Name(0x014a), Ole32Name(0x014b), 0)
    ensures DivergesAt(Ole32Name(0x014b), Ole32Name(0x014c), 25)
    ensures DivergesAt(Ole32Name(0x014c), Ole32Name(0x014d), 25)
  {
  }

  lemma SuccessorNamesAscendFrom0148(i: u32)
    requires 0x0148 <= i < 0x014d
    ensures Precedes(Ole32Name(i), Ole32Name(i + 1))
  {
    NamesAscendFrom0148();
  }

  /** The names of ordinals 0x014d to 0x0152 ascend. */
  lemma NamesAscendFrom014d()
    ensures DivergesAt(Ole32Name(0x014d), Ole32Name(0x014e), 25)
    ensures DivergesAt(Ole32Name(0x014e), Ole32Name(0x014f), 1)
    ensures DivergesAt(Ole32Name(0x014f), Ole32Name(0x0150), 12)
    ensures DivergesAt(Ole32Name(0x0150), Ole32Name(0x0151), 5)
    ensures DivergesAt(Ole32Name(0x0151), Ole32Name(0x0152), 5)
  {
  }

  lemma SuccessorNamesAscendFrom014d(i: u32)
    requires 0x014d <= i < 0x0152
    ensures Precedes(Ole32Name(i), Ole32Name(i + 1))
  {
    NamesAscendFrom014d();
  }

  /** The names of ordinals 0x0152 to 0x0153 ascend. */
  lemma NamesAscendFrom0152()
    ensures DivergesAt(Ole32Name(0x0152), Ole32Name(0x0153), 5)
  {
  }

  lemma SuccessorNamesAscendFrom0152(i: u32)
    requires 0x0152 <= i < 0x0153
    ensures Precedes(Ole32Name(i), Ole32Name(i + 1))
  {
    NamesAscendFrom0152();
  }

  lemma SuccessorNamesAscend0002(i: u32)
    requires 0x0002 <= i < 0x0020 && i != 0x11a
    ensures Precedes(Ole32Name(i), Ole32Name(i + 1))
  {
    if i < 0x0007 {
      SuccessorNamesAscendFrom0002(i);
    } else if i < 0x000c {
      SuccessorNamesAscendFrom0007(i);
    } else if i < 0x0011 {
      SuccessorNamesAscendFrom000c(i);
    } else if i < 0x0016 {
      SuccessorNamesAscendFrom0011(i);
    } else if i < 0x001b {
      SuccessorNamesAscendFrom0016(i);
    } else {
      SuccessorNamesAscendFrom001b(i);
    }
  }

  lemma SuccessorNamesAscend0020(i: u32)
    requires 0x0020 <= i < 0x003e && i != 0x11a
    ensures Precedes(Ole32Name(i), Ole32Name(i + 1))
  {
    if i < 0x0025 {
      SuccessorNamesAscendFrom0020(i);
    } else if i < 0x002a {
      SuccessorNamesAscendFrom0025(i);
    } else if i < 0x002f {
      SuccessorNamesAscendFrom002a(i);
    } else if i < 0x0034 {
      SuccessorNamesAscendFrom002f(i);
    } else if i < 0x0039 {
      SuccessorNamesAscendFrom0034(i);
    } else {
      SuccessorNamesAscendFrom0039(i);
    }
  }

  lemma SuccessorNamesAscend003e(i: u32)
    requires 0x003e <= i < 0x005c && i != 0x11a
    ensures Precedes(Ole32Name(i), Ole32Name(i + 1))
  {
    if i < 0x0043 {
      SuccessorNamesAscendFrom003e(i);
    } else if i < 0x0048 {
      SuccessorNamesAscendFrom0043(i);
    } else if i < 0x004d {
      SuccessorNamesAscendFrom0048(i);
    } else if i < 0x0052 {
      SuccessorNamesAscendFrom004d(i);
    } else if i < 0x0057 {
      SuccessorNamesAscendFrom0052(i);
    } else {
      SuccessorNamesAscendFrom0057(i);
    }
  }

  lemma SuccessorNamesAscend005c(i: u32)
    requires 0x005c <= i < 0x007a && i != 0x11a
    ensures Precedes(Ole32Name(i), Ole32Name(i + 1))
  {
    if i < 0x0061 {
      SuccessorNamesAscendFrom005c(i);
    } else if i < 0x0066 {
      SuccessorNamesAscendFrom0061(i);
    } else if i < 0x006b {
      SuccessorNamesAscendFrom0066(i);
    } else if i < 0x0070 {
      SuccessorNamesAscendFrom006b(i);
    } else if i < 0x0075 {
      SuccessorNamesAscendFrom0070(i);
    } else {
      SuccessorNamesAscendFrom0075(i);
    }
  }

  lemma SuccessorNamesAscend007a(i: u32)
    requires 0x007a <= i < 0x0098 && i != 0x11a
    ensures Precedes(Ole32Name(i), Ole32Name(i + 1))
  {
    if i < 0x007f {
      SuccessorNamesAscendFrom007a(i);
    } else if i < 0x0084 {
      SuccessorNamesAscendFrom007f(i);
    } else if i < 0x0089 {
      SuccessorNamesAscendFrom0084(i);
    } else if i < 0x008e {
      SuccessorNamesAscendFrom0089(i);
    } else if i < 0x0093 {
      SuccessorNamesAscendFrom008e(i);
    } else {
      SuccessorNamesAscendFrom0093(i);
    }
  }

  lemma SuccessorNamesAscend0098(i: u32)
    requires 0x0098 <= i < 0x00b6 && i != 0x11a
    ensures Precedes(Ole32Name(i), Ole32Name(i + 1))
  {
    if i < 0x009d {
      SuccessorNamesAscendFrom0098(i);
    } else if i < 0x00a2 {
      SuccessorNamesAscendFrom009d(i);
    } else if i < 0x00a7 {
      SuccessorNamesAscendFrom00a2(i);
    } else if i < 0x00ac {
      SuccessorNamesAscendFrom00a7(i);
    } else if i < 0x00b1 {
      SuccessorNamesAscendFrom00ac(i);
    } else {
      SuccessorNamesAscendFrom00b1(i);
    }
  }

  lemma SuccessorNamesAscend00b6(i: u32)
    requires 0x00b6 <= i < 0x00d4 && i != 0x11a
    ensures Precedes(Ole32Name(i), Ole32Name(i + 1))
  {
    if i < 0x00bb {
      SuccessorNamesAscendFrom00b6(i);
    } else if i < 0x00c0 {
      SuccessorNamesAscendFrom00bb(i);
    } else if i < 0x00c5 {
      SuccessorNamesAscendFrom00c0(i);
    } else if i < 0x00ca {
      SuccessorNamesAscendFrom00c5(i);
    } else if i < 0x00cf {
      SuccessorNamesAscendFrom00ca(i);
    } else {
      SuccessorNamesAscendFrom00cf(i);
    }
  }

  lemma SuccessorNamesAscend00d4(i: u32)
    requires 0x00d4 <= i < 0x00f2 && i != 0x11a
    ensures Precedes(Ole32Name(i), Ole32Name(i + 1))
  {
    if i < 0x00d9 {
      SuccessorNamesAscendFrom00d4(i);
    } else if i < 0x00de {
      SuccessorNamesAscendFrom00d9(i);
    } else if i < 0x00e3 {
      SuccessorNamesAscendFrom00de(i);
    } else if i < 0x00e8 {
      SuccessorNamesAscendFrom00e3(i);
    } else if i < 0x00ed {
      SuccessorNamesAscendFrom00e8(i);
    } else {
      SuccessorNamesAscendFrom00ed(i);
    }
  }

  lemma SuccessorNamesAscend00f2(i: u32)
    requires 0x00f2 <= i < 0x0110 && i != 0x11a
    ensures Precedes(Ole32Name(i), Ole32Name(i + 1))
  {
    if i < 0x00f7 {
      SuccessorNamesAscendFrom00f2(i);
    } else if i < 0x00fc {
      SuccessorNamesAscendFrom00f7(i);
    } else if i < 0x0101 {
      SuccessorNamesAscendFrom00fc(i);
    } else if i < 0x0106 {
      SuccessorNamesAscendFrom0101(i);
    } else if i < 0x010b {
      SuccessorNamesAscendFrom0106(i);
    } else {
      SuccessorNamesAscendFrom010b(i);
    }
  }

  lemma SuccessorNamesAscend0110(i: u32)
    requires 0x0110 <= i < 0x012f && i != 0x11a
    ensures Precedes(Ole32Name(i), Ole32Name(i + 1))
  {
    if i < 0x0115 {
      SuccessorNamesAscendFrom0110(i);
    } else if i < 0x011a {
      SuccessorNamesAscendFrom0115(i);
    } else if i < 0x0120 {
      SuccessorNamesAscendFrom011b(i);
    } else if i < 0x0125 {
      SuccessorNamesAscendFrom0120(i);
    } else if i < 0x012a {
      SuccessorNamesAscendFrom0125(i);
    } else {
      SuccessorNamesAscendFrom012a(i);
    }
  }

  lemma SuccessorNamesAscend012f(i: u32)
    requires 0x012f <= i < 0x014d && i != 0x11a
    ensures Precedes(Ole32Name(i), Ole32Name(i + 1))
  {
    if i < 0x0134 {
      SuccessorNamesAscendFrom012f(i);
    } else if i < 0x0139 {
      SuccessorNamesAscendFrom0134(i);
    } else if i < 0x013e {
      SuccessorNamesAscendFrom0139(i);
    } else if i < 0x0143 {
      SuccessorNamesAscendFrom013e(i);
    } else if i < 0x0148 {
      SuccessorNamesAscendFrom0143(i);
    } else {
      SuccessorNamesAscendFrom0148(i);
    }
  }

  lemma SuccessorNamesAscend014d(i: u32)
    requires 0x014d <= i < 0x0153 && i != 0x11a
    ensures Precedes(Ole32Name(i), Ole32Name(i + 1))
  {
    if i < 0x0152 {
      SuccessorNamesAscendFrom014d(i);
    } else {
      SuccessorNamesAscendFrom0152(i);
    }
  }

  /** Where the table lists ordinal `i + 1` right after ordinal `i`, the
      name of `i` comes first in character order. */
  lemma SuccessorNamesAscend(i: u32)
    requires 2 <= i < 0x153 && i != 0x11a
    ensures Precedes(Ole32Name(i), Ole32Name(i + 1))
  {
    if i < 0x0020 {
      SuccessorNamesAscend0002(i);
    } else if i < 0x003e {
      SuccessorNamesAscend0020(i);
    } else if i < 0x005c {
      SuccessorNamesAscend003e(i);
    } else if i < 0x007a {
      SuccessorNamesAscend005c(i);
    } else if i < 0x0098 {
      SuccessorNamesAscend007a(i);
    } else if i < 0x00b6 {
      SuccessorNamesAscend0098(i);
    } else if i < 0x00d4 {
      SuccessorNamesAscend00b6(i);
    } else if i < 0x00f2 {
      SuccessorNamesAscend00d4(i);
    } else if i < 0x0110 {
      SuccessorNamesAscend00f2(i);
    } else if i < 0x012f {
      SuccessorNamesAscend0110(i);
    } else if i < 0x014d {
      SuccessorNamesAscend012f(i);
    } else {
      SuccessorNamesAscend014d(i);
    }
  }

  /** The two places where the table leaves ordinal order: ordinal 1 sits
      between 0x011a and 0x011b. */
  lemma OrdinalOneNamesAscend()
    ensures Precedes(Ole32Name(0x011a), Ole32Name(0x0001))
    ensures Precedes(Ole32Name(0x0001), Ole32Name(0x011b))
  {
    assert DivergesAt(Ole32Name(0x011a), Ole32Name(0x0001), 4);
    assert DivergesAt(Ole32Name(0x0001), Ole32Name(0x011b), 12);
  }

  /** Consecutive case labels of the table carry strictly ascending names. */
  lemma AdjacentNamesAscend(k: nat)
    requires k + 1 < CaseCount
    ensures Precedes(Ole32Name(CaseOrdinal(k)), Ole32Name(CaseOrdinal(k + 1)))
  {
    if k < 0x118 {
      SuccessorNamesAscend(k + 2);
    } else if k < 0x11a {
      OrdinalOneNamesAscend();
    } else {
      SuccessorNamesAscend(k + 1);
    }
  }

  /** The names of the table are strictly ascending in table order. */
  lemma {:induction false} NamesAscend(p: nat, q: nat)
    requires p < q < CaseCount
    ensures Precedes(Ole32Name(CaseOrdinal(p)), Ole32Name(CaseOrdinal(q)))
    decreases q - p
  {
    AdjacentNamesAscend(p);
    if p + 1 < q {
      NamesAscend(p + 1, q);
      PrecedesTransitive(Ole32Name(CaseOrdinal(p)), Ole32Name(CaseOrdinal(p + 1)),
        Ole32Name(CaseOrdinal(q)));
    }
  }

  /** No name repeats: distinct ordinals that both have a name have
      different names. */
  lemma Ole32NamesDistinct(i: u32, j: u32)
    requires i != j
    requires Ole32DllLookup(i).Some? && Ole32DllLookup(j).Some?
    ensures Ole32DllLookup(i) != Ole32DllLookup(j)
  {
    Ole32Domain(i);
    Ole32Domain(j);
    var p, q := CasePosition(i), CasePosition(j);
    PrecedesIrreflexive(Ole32Name(i));
    if p < q {
      NamesAscend(p, q);
    } else {
      NamesAscend(q, p);
    }
  }

  /** Values of the table that its callers rely on. */
  lemma Ole32SpotValues()
    ensures Ole32DllLookup(0x0011) == Some("CoCreateGuid")
    ensures Ole32DllLookup(0x0002) == Some("BindMoniker")
    ensures Ole32DllLookup(0x0153) == Some("WriteStringStream")
    ensures Ole32DllLookup(0x0001) == Some("PropVariantChangeType")
    ensures Ole32DllLookup(0x0000) == None
    ensures Ole32DllLookup(0xFFFF) == None
  {
  }
}
